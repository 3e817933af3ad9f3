/** Products per substrate: how many copies of a product fit on a substrate of
    width `w` and height `h`, trying the product in its native (horizontal)
    placement and turned by a quarter (vertical), keeping the better one. */
module Tiling {

  datatype Orientation = Hor | Vert

  /** A product's footprint in metres (after size uncertainty is applied). */
  datatype ProductSize = ProductSize(height: real, width: real)

  predicate Positive(ps: ProductSize)
  {
    ps.height > 0.0 && ps.width > 0.0
  }

  /** One entry of the products-per-substrate table: columns across the
      substrate width, rows across its height, their product and the placement. */
  datatype Tiling = Tiling(numWidth: int, numHeight: int, numProducts: int, orientation: Orientation)

  /** Copies across the width and height when the product's width lies along the substrate width. */
  function HorColumns(w: real, ps: ProductSize): int
    requires Positive(ps)
  {
    (w / ps.width).Floor
  }

  function HorRows(h: real, ps: ProductSize): int
    requires Positive(ps)
  {
    (h / ps.height).Floor
  }

  /** Copies across the width and height when the product is turned a quarter. */
  function VertColumns(w: real, ps: ProductSize): int
    requires Positive(ps)
  {
    (w / ps.height).Floor
  }

  function VertRows(h: real, ps: ProductSize): int
    requires Positive(ps)
  {
    (h / ps.width).Floor
  }

  function HorCount(w: real, h: real, ps: ProductSize): int
    requires Positive(ps)
  {
    HorColumns(w, ps) * HorRows(h, ps)
  }

  function VertCount(w: real, h: real, ps: ProductSize): int
    requires Positive(ps)
  {
    VertColumns(w, ps) * VertRows(h, ps)
  }

  /** The products-per-substrate entry: the orientation with more copies wins,
      and a tie keeps the horizontal placement. */
  function Tile(w: real, h: real, ps: ProductSize): (r: Tiling)
    requires Positive(ps)
    ensures r.numProducts == r.numWidth * r.numHeight
    ensures r.numProducts >= HorCount(w, h, ps) && r.numProducts >= VertCount(w, h, ps)
    ensures r.numProducts == HorCount(w, h, ps) || r.numProducts == VertCount(w, h, ps)
    ensures r.orientation == Hor <==> HorCount(w, h, ps) >= VertCount(w, h, ps)
    ensures r.orientation == Hor ==> r.numWidth == HorColumns(w, ps) && r.numHeight == HorRows(h, ps)
    ensures r.orientation == Vert ==> r.numWidth == VertColumns(w, ps) && r.numHeight == VertRows(h, ps)
  {
    var horW, horH := HorColumns(w, ps), HorRows(h, ps);
    var vertW, vertH := VertColumns(w, ps), VertRows(h, ps);
    if horW * horH >= vertW * vertH then
      Tiling(horW, horH, horW * horH, Hor)
    else
      Tiling(vertW, vertH, vertW * vertH, Vert)
  }

  /** On a substrate of non-negative size every count is a natural number. */
  lemma TileNonNegative(w: real, h: real, ps: ProductSize)
    requires Positive(ps) && w >= 0.0 && h >= 0.0
    ensures var r := Tile(w, h, ps); r.numWidth >= 0 && r.numHeight >= 0 && r.numProducts >= 0
  {
  }

  /** A product that does not fit in either placement (in each placement one of
      its sides is longer than the matching substrate side) gets no copies. */
  predicate TooLarge(w: real, h: real, ps: ProductSize)
  {
    (ps.width > w || ps.height > h) && (ps.height > w || ps.width > h)
  }

  lemma TooLargeGivesNoUnits(w: real, h: real, ps: ProductSize)
    requires Positive(ps) && w >= 0.0 && h >= 0.0
    requires TooLarge(w, h, ps)
    ensures Tile(w, h, ps).numProducts == 0
  {
    if ps.width > w {
      FloorOfProperFraction(w, ps.width);
    } else {
      FloorOfProperFraction(h, ps.height);
    }
    if ps.height > w {
      FloorOfProperFraction(w, ps.height);
    } else {
      FloorOfProperFraction(h, ps.width);
    }
  }

  lemma FloorOfProperFraction(a: real, d: real)
    requires 0.0 <= a < d
    ensures (a / d).Floor == 0
  {
    assert (a / d) * d == a;
    assert a / d < 1.0;
  }

  /** A 0.5 m by 0.5 m substrate holds no 1 m by 1 m product. */
  lemma SmallSubstrateHoldsNothing()
    ensures Tile(0.5, 0.5, ProductSize(1.0, 1.0)).numProducts == 0
  {
    TooLargeGivesNoUnits(0.5, 0.5, ProductSize(1.0, 1.0));
  }

  /** Exchanging the substrate's sides exchanges the two placements, so the
      number of copies does not change (only the recorded orientation may). */
  lemma TileSwapSides(w: real, h: real, ps: ProductSize)
    requires Positive(ps)
    ensures Tile(h, w, ps).numProducts == Tile(w, h, ps).numProducts
  {
    assert HorCount(h, w, ps) == VertCount(w, h, ps);
    assert VertCount(h, w, ps) == HorCount(w, h, ps);
  }

  lemma FloorMonotone(a: real, b: real)
    requires a <= b
    ensures a.Floor <= b.Floor
  {
  }

  lemma MulMonotone(a: int, b: int, c: int, d: int)
    requires 0 <= a <= c && 0 <= b <= d
    ensures a * b <= c * d
  {
    assert a * b <= c * b;
    assert c * b <= c * d;
  }

  lemma DivMonotone(a: real, b: real, d: real)
    requires a <= b && d > 0.0
    ensures a / d <= b / d
  {
  }

  /** A larger substrate never holds fewer copies. */
  lemma TileMonotone(w: real, h: real, w': real, h': real, ps: ProductSize)
    requires Positive(ps)
    requires 0.0 <= w <= w' && 0.0 <= h <= h'
    ensures Tile(w, h, ps).numProducts <= Tile(w', h', ps).numProducts
  {
    DivMonotone(w, w', ps.width);
    DivMonotone(h, h', ps.height);
    DivMonotone(w, w', ps.height);
    DivMonotone(h, h', ps.width);
    DivMonotone(0.0, w, ps.width);
    DivMonotone(0.0, h, ps.height);
    DivMonotone(0.0, w, ps.height);
    DivMonotone(0.0, h, ps.width);
    FloorMonotone(w / ps.width, w' / ps.width);
    FloorMonotone(h / ps.height, h' / ps.height);
    FloorMonotone(w / ps.height, w' / ps.height);
    FloorMonotone(h / ps.width, h' / ps.width);
    MulMonotone(HorColumns(w, ps), HorRows(h, ps), HorColumns(w', ps), HorRows(h', ps));
    MulMonotone(VertColumns(w, ps), VertRows(h, ps), VertColumns(w', ps), VertRows(h', ps));
  }
}
