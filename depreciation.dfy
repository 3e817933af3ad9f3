/** The depreciation schedule: every investment column is written off
    straight-line over `D` years starting at the column's year label, and the
    shares are accumulated into a year-keyed table with insert-or-add. The
    table keeps its keys in first-insertion order, which is the order in which
    the period model later reads it by position. */
module Depreciation {
  import opened Sums

  /** One investment column: its year label and its outlay. */
  datatype Investment = Investment(year: int, amount: real)

  /** An insertion-ordered year-keyed table: the keys in insertion order and the values by key. */
  datatype Table = Table(keys: seq<int>, values: map<int, real>)

  function Empty(): Table
  {
    Table([], map[])
  }

  /** Keys are distinct and are exactly the keys that carry a value. */
  predicate Valid(tb: Table)
  {
    && (forall a, b :: 0 <= a < b < |tb.keys| ==> tb.keys[a] != tb.keys[b])
    && (forall y :: y in tb.values ==> y in tb.keys)
    && (forall a :: 0 <= a < |tb.keys| ==> tb.keys[a] in tb.values)
  }

  /** The table read by position: entry t is the value of the t-th key inserted. */
  function Positional(tb: Table): seq<real>
    requires Valid(tb)
  {
    seq(|tb.keys|, t requires 0 <= t < |tb.keys| => tb.values[tb.keys[t]])
  }

  /** Insert-or-add: add `v` to the value of `year`, inserting the key (at the
      end of the key order) when it is not there yet. */
  function Credit(tb: Table, year: int, v: real): Table
  {
    if year in tb.values then Table(tb.keys, tb.values[year := tb.values[year] + v])
    else Table(tb.keys + [year], tb.values[year := v])
  }

  /** One accumulation step: a year and the share credited to it. */
  datatype Visit = Visit(year: int, amount: real)

  /** The years `first`, `first + 1`, ..., `first + n - 1`, each with share `per`. */
  function Spread(first: int, per: real, n: nat): seq<Visit>
  {
    if n == 0 then [] else Spread(first, per, n - 1) + [Visit(first + n - 1, per)]
  }

  /** A column's yearly share: its outlay divided by `D` (unused when `D` is not positive). */
  function Share(c: Investment, D: int): real
  {
    if D > 0 then c.amount / (D as real) else 0.0
  }

  /** The steps of one column: its share credited to the `D` years from its
      label on; none when `D` is not positive. */
  function ColumnVisits(c: Investment, D: int): seq<Visit>
  {
    if D <= 0 then [] else Spread(c.year, Share(c, D), D)
  }

  /** The steps of all columns, column by column. */
  function Visits(cols: seq<Investment>, D: int): seq<Visit>
  {
    if cols == [] then [] else Visits(cols[..|cols| - 1], D) + ColumnVisits(cols[|cols| - 1], D)
  }

  /** The table after the steps `vs`, taken in order, starting from `tb`. */
  function Fold(tb: Table, vs: seq<Visit>): Table
  {
    if vs == [] then tb
    else Credit(Fold(tb, vs[..|vs| - 1]), vs[|vs| - 1].year, vs[|vs| - 1].amount)
  }

  /** The schedule the double loop builds. */
  function Schedule(cols: seq<Investment>, D: int): Table
  {
    Fold(Empty(), Visits(cols, D))
  }

  /** Builds the schedule with a loop over the investment columns and, inside
      it, a loop over the depreciation years, updating the table in place. */
  method BuildDepreciation(cols: seq<Investment>, D: int) returns (keys: seq<int>, dep: map<int, real>)
    ensures Table(keys, dep) == Schedule(cols, D)
  {
    keys, dep := [], map[];
    var i := 0;
    while i < |cols|
      invariant 0 <= i <= |cols|
      invariant Table(keys, dep) == Fold(Empty(), Visits(cols[..i], D))
    {
      ghost var start := Table(keys, dep);
      // The source divides before the inner loop; with D <= 0 that loop is
      // empty and the share is never used.
      var per := Share(cols[i], D);
      var j := 0;
      while j < D
        invariant 0 <= j <= (if D > 0 then D else 0)
        invariant Table(keys, dep) == Fold(start, Spread(cols[i].year, per, j))
      {
        var year := cols[i].year + j;
        SpreadStep(start, cols[i].year, per, j);
        if year in dep {
          dep := dep[year := dep[year] + per];
        } else {
          dep := dep[year := per];
          keys := keys + [year];
        }
        j := j + 1;
      }
      ColumnDone(cols, D, i, start, Table(keys, dep));
      i := i + 1;
    }
    assert cols[..i] == cols;
  }

  /** Once a column's years are all credited, the table is the fold of the
      steps of one more column. */
  lemma ColumnDone(cols: seq<Investment>, D: int, i: nat, start: Table, tb: Table)
    requires i < |cols|
    requires start == Fold(Empty(), Visits(cols[..i], D))
    requires tb == Fold(start, Spread(cols[i].year, Share(cols[i], D), if D > 0 then D else 0))
    ensures tb == Fold(Empty(), Visits(cols[..i + 1], D))
  {
    VisitsStep(cols, D, i);
    FoldAppend(Empty(), Visits(cols[..i], D), Spread(cols[i].year, Share(cols[i], D), if D > 0 then D else 0));
  }

  /** One more year of a spread is one more insert-or-add step. */
  lemma SpreadStep(tb: Table, first: int, per: real, j: nat)
    ensures Fold(tb, Spread(first, per, j + 1)) == Credit(Fold(tb, Spread(first, per, j)), first + j, per)
  {
    var s := Spread(first, per, j + 1);
    assert s[..|s| - 1] == Spread(first, per, j);
  }

  /** Taking the steps `a + b` is taking `a`, then `b`. */
  lemma {:induction false} FoldAppend(tb: Table, a: seq<Visit>, b: seq<Visit>)
    ensures Fold(tb, a + b) == Fold(Fold(tb, a), b)
  {
    if b == [] {
      assert a + b == a;
    } else {
      assert (a + b)[..|a + b| - 1] == a + b[..|b| - 1];
      FoldAppend(tb, a, b[..|b| - 1]);
    }
  }

  /** After its inner loop, column i's steps are all taken. */
  lemma VisitsStep(cols: seq<Investment>, D: int, i: nat)
    requires i < |cols|
    ensures Visits(cols[..i], D) + Spread(cols[i].year, Share(cols[i], D), if D > 0 then D else 0)
         == Visits(cols[..i + 1], D)
  {
    assert cols[..i + 1][..i] == cols[..i];
  }

  // ---------------------------------------------------------------------------
  // The steps

  /** The years a sequence of steps visits, in order. */
  function Years(vs: seq<Visit>): seq<int>
  {
    seq(|vs|, k requires 0 <= k < |vs| => vs[k].year)
  }

  /** The total of all shares. */
  function Amount(vs: seq<Visit>): real
  {
    if vs == [] then 0.0 else Amount(vs[..|vs| - 1]) + vs[|vs| - 1].amount
  }

  /** The total of the shares credited to year `y`. */
  function YearTotal(vs: seq<Visit>, y: int): real
  {
    if vs == [] then 0.0
    else YearTotal(vs[..|vs| - 1], y) + (if vs[|vs| - 1].year == y then vs[|vs| - 1].amount else 0.0)
  }

  lemma {:induction false} AmountAppend(a: seq<Visit>, b: seq<Visit>)
    ensures Amount(a + b) == Amount(a) + Amount(b)
  {
    if b != [] {
      assert (a + b)[..|a + b| - 1] == a + b[..|b| - 1];
      AmountAppend(a, b[..|b| - 1]);
    } else {
      assert a + b == a;
    }
  }

  lemma {:induction false} YearTotalAppend(a: seq<Visit>, b: seq<Visit>, y: int)
    ensures YearTotal(a + b, y) == YearTotal(a, y) + YearTotal(b, y)
  {
    if b != [] {
      assert (a + b)[..|a + b| - 1] == a + b[..|b| - 1];
      YearTotalAppend(a, b[..|b| - 1], y);
    } else {
      assert a + b == a;
    }
  }

  /** A spread visits exactly the years from `first` up to, not including, `first + n`. */
  lemma {:induction false} SpreadYears(first: int, per: real, n: nat, y: int)
    ensures y in Years(Spread(first, per, n)) <==> first <= y < first + n
  {
    if n > 0 {
      SpreadYears(first, per, n - 1, y);
      var front := Spread(first, per, n - 1);
      assert Years(Spread(first, per, n)) == Years(front) + [first + n - 1];
    }
  }

  /** Each year of a spread gets exactly one share. */
  lemma {:induction false} SpreadYearTotal(first: int, per: real, n: nat, y: int)
    ensures YearTotal(Spread(first, per, n), y) == if first <= y < first + n then per else 0.0
  {
    if n > 0 {
      SpreadYearTotal(first, per, n - 1, y);
      var s := Spread(first, per, n);
      assert s[..|s| - 1] == Spread(first, per, n - 1);
    }
  }

  lemma {:induction false} SpreadAmount(first: int, per: real, n: nat)
    ensures Amount(Spread(first, per, n)) == (n as real) * per
  {
    if n > 0 {
      SpreadAmount(first, per, n - 1);
      var s := Spread(first, per, n);
      assert s[..|s| - 1] == Spread(first, per, n - 1);
    }
  }

  /** `n` equal shares of `a / n` add up to `a`. */
  lemma SharesAddUp(a: real, n: nat, total: real)
    requires n > 0 && total == (n as real) * (a / (n as real))
    ensures total == a
  {
  }

  /** With at least one depreciation year a column's shares add up to its outlay. */
  lemma ColumnAmount(c: Investment, D: int)
    requires D >= 1
    ensures Amount(ColumnVisits(c, D)) == c.amount
  {
    SpreadAmount(c.year, Share(c, D), D);
    SharesAddUp(c.amount, D, Amount(ColumnVisits(c, D)));
  }

  // ---------------------------------------------------------------------------
  // What the steps add up to, column by column

  /** Year y lies in the depreciation window of some column. */
  predicate Covered(cols: seq<Investment>, D: int, y: int)
  {
    exists i :: 0 <= i < |cols| && cols[i].year <= y < cols[i].year + D
  }

  /** The depreciation of year y: the share of every column whose window holds y. */
  function Due(cols: seq<Investment>, D: int, y: int): real
  {
    if cols == [] then 0.0
    else
      var c := cols[|cols| - 1];
      Due(cols[..|cols| - 1], D, y) + (if c.year <= y < c.year + D then Share(c, D) else 0.0)
  }

  /** The total outlay of all columns. */
  function Invested(cols: seq<Investment>): real
  {
    if cols == [] then 0.0 else Invested(cols[..|cols| - 1]) + cols[|cols| - 1].amount
  }

  lemma {:induction false} VisitsYears(cols: seq<Investment>, D: int, y: int)
    ensures y in Years(Visits(cols, D)) <==> Covered(cols, D, y)
  {
    if cols != [] {
      var n := |cols| - 1;
      var c := cols[n];
      VisitsYears(cols[..n], D, y);
      assert Years(Visits(cols, D)) == Years(Visits(cols[..n], D)) + Years(ColumnVisits(c, D));
      if D > 0 {
        SpreadYears(c.year, Share(c, D), D, y);
      }
      if Covered(cols, D, y) {
        var i :| 0 <= i < |cols| && cols[i].year <= y < cols[i].year + D;
        if i < n {
          assert cols[..n][i] == cols[i];
        }
      }
      if Covered(cols[..n], D, y) {
        var i :| 0 <= i < n && cols[..n][i].year <= y < cols[..n][i].year + D;
        assert cols[i] == cols[..n][i];
      }
    }
  }

  lemma {:induction false} VisitsYearTotal(cols: seq<Investment>, D: int, y: int)
    ensures YearTotal(Visits(cols, D), y) == Due(cols, D, y)
  {
    if cols != [] {
      var n := |cols| - 1;
      var c := cols[n];
      VisitsYearTotal(cols[..n], D, y);
      YearTotalAppend(Visits(cols[..n], D), ColumnVisits(c, D), y);
      if D > 0 {
        SpreadYearTotal(c.year, Share(c, D), D, y);
      }
    }
  }

  lemma {:induction false} VisitsAmount(cols: seq<Investment>, D: int)
    requires D >= 1
    ensures Amount(Visits(cols, D)) == Invested(cols)
  {
    if cols != [] {
      var n := |cols| - 1;
      VisitsAmount(cols[..n], D);
      AmountAppend(Visits(cols[..n], D), ColumnVisits(cols[n], D));
      ColumnAmount(cols[n], D);
    }
  }

  // ---------------------------------------------------------------------------
  // Insert-or-add

  /** One step changes the entry of `year` only: it becomes the old value (or
      zero) plus `v`; a new key goes to the end of the key order. */
  lemma CreditFrame(tb: Table, year: int, v: real)
    ensures var r := Credit(tb, year, v);
            && year in r.values
            && r.values[year] == (if year in tb.values then tb.values[year] else 0.0) + v
            && (forall y :: y != year ==> (y in r.values <==> y in tb.values))
            && (forall y :: y != year && y in tb.values ==> r.values[y] == tb.values[y])
            && r.keys == (if year in tb.values then tb.keys else tb.keys + [year])
  {
  }

  lemma CreditValid(tb: Table, year: int, v: real)
    requires Valid(tb)
    ensures Valid(Credit(tb, year, v))
  {
  }

  lemma {:induction false} FoldValid(tb: Table, vs: seq<Visit>)
    requires Valid(tb)
    ensures Valid(Fold(tb, vs))
  {
    if vs != [] {
      var n := |vs| - 1;
      FoldValid(tb, vs[..n]);
      CreditValid(Fold(tb, vs[..n]), vs[n].year, vs[n].amount);
    }
  }

  /** A year carries a value after the steps when it did before or was visited. */
  lemma {:induction false} FoldDomain(tb: Table, vs: seq<Visit>, y: int)
    ensures y in Fold(tb, vs).values <==> y in tb.values || y in Years(vs)
  {
    if vs != [] {
      var n := |vs| - 1;
      FoldDomain(tb, vs[..n], y);
      assert Years(vs) == Years(vs[..n]) + [vs[n].year];
    }
  }

  /** A year's value after the steps is its old value (or zero) plus every share credited to it. */
  lemma {:induction false} FoldValue(tb: Table, vs: seq<Visit>, y: int)
    requires y in Fold(tb, vs).values
    ensures Fold(tb, vs).values[y] == (if y in tb.values then tb.values[y] else 0.0) + YearTotal(vs, y)
  {
    if vs != [] {
      var n := |vs| - 1;
      var before := Fold(tb, vs[..n]);
      CreditFrame(before, vs[n].year, vs[n].amount);
      if y in before.values {
        FoldValue(tb, vs[..n], y);
      } else {
        assert y == vs[n].year;
        FoldDomain(tb, vs[..n], y);
        FoldYearTotalAbsent(vs[..n], y);
      }
    }
  }

  /** A year never visited has received no share. */
  lemma {:induction false} FoldYearTotalAbsent(vs: seq<Visit>, y: int)
    requires y !in Years(vs)
    ensures YearTotal(vs, y) == 0.0
  {
    if vs != [] {
      var n := |vs| - 1;
      assert Years(vs[..n]) == Years(vs)[..n];
      assert vs[n].year == Years(vs)[n];
      FoldYearTotalAbsent(vs[..n], y);
    }
  }

  /** Read by position, one step adds its share to the sum of the table. */
  lemma CreditTotal(tb: Table, year: int, v: real)
    requires Valid(tb)
    ensures Valid(Credit(tb, year, v))
    ensures Sum(Positional(Credit(tb, year, v))) == Sum(Positional(tb)) + v
  {
    CreditValid(tb, year, v);
    var r := Credit(tb, year, v);
    var old_ := Positional(tb);
    if year in tb.values {
      var k :| 0 <= k < |tb.keys| && tb.keys[k] == year;
      assert Positional(r) == old_[k := old_[k] + v];
      SumUpdate(old_, k, v);
    } else {
      assert Positional(r) == old_ + [v];
      SumAppend(old_, [v]);
      SumSingleton(v);
    }
  }

  lemma {:induction false} FoldTotal(tb: Table, vs: seq<Visit>)
    requires Valid(tb)
    ensures Valid(Fold(tb, vs))
    ensures Sum(Positional(Fold(tb, vs))) == Sum(Positional(tb)) + Amount(vs)
  {
    if vs != [] {
      var n := |vs| - 1;
      FoldTotal(tb, vs[..n]);
      CreditTotal(Fold(tb, vs[..n]), vs[n].year, vs[n].amount);
    }
  }

  // ---------------------------------------------------------------------------
  // First-insertion order

  /** The position of the first occurrence of `y` in `ys`. */
  function FirstIndex(ys: seq<int>, y: int): (k: nat)
    requires y in ys
    ensures k < |ys| && ys[k] == y && forall i :: 0 <= i < k ==> ys[i] != y
  {
    if ys[0] == y then 0 else 1 + FirstIndex(ys[1..], y)
  }

  lemma {:induction false} FirstIndexAppend(ys: seq<int>, z: int, y: int)
    requires y in ys
    ensures FirstIndex(ys + [z], y) == FirstIndex(ys, y)
  {
    if ys[0] != y {
      assert (ys + [z])[1..] == ys[1..] + [z];
      FirstIndexAppend(ys[1..], z, y);
    }
  }

  lemma FirstIndexOfNew(ys: seq<int>, z: int)
    requires z !in ys
    ensures FirstIndex(ys + [z], z) == |ys|
  {
    var k := FirstIndex(ys + [z], z);
    if k < |ys| {
      assert ys[k] == z;
    }
  }

  /** Keys are ordered by where their year first occurs among the visited years. */
  predicate FirstInsertionOrder(keys: seq<int>, ys: seq<int>)
  {
    && (forall a :: 0 <= a < |keys| ==> keys[a] in ys)
    && (forall a, b :: 0 <= a < b < |keys| && keys[a] in ys && keys[b] in ys ==>
          FirstIndex(ys, keys[a]) < FirstIndex(ys, keys[b]))
  }

  lemma {:induction false} FoldOrder(vs: seq<Visit>)
    ensures FirstInsertionOrder(Fold(Empty(), vs).keys, Years(vs))
  {
    if vs != [] {
      var n := |vs| - 1;
      var before := Fold(Empty(), vs[..n]);
      var ys := Years(vs[..n]);
      var z := vs[n].year;
      FoldOrder(vs[..n]);
      assert Years(vs) == ys + [z];
      forall y | y in ys
        ensures FirstIndex(ys + [z], y) == FirstIndex(ys, y)
      {
        FirstIndexAppend(ys, z, y);
      }
      FoldDomain(Empty(), vs[..n], z);
      if z !in before.values {
        FirstIndexOfNew(ys, z);
      }
    }
  }

  // ---------------------------------------------------------------------------
  // The schedule

  /** The schedule's keys are distinct, carry values, and are exactly the
      years covered by some column's depreciation window. */
  lemma ScheduleKeys(cols: seq<Investment>, D: int, y: int)
    ensures Valid(Schedule(cols, D))
    ensures y in Schedule(cols, D).values <==> Covered(cols, D, y)
  {
    FoldValid(Empty(), Visits(cols, D));
    FoldDomain(Empty(), Visits(cols, D), y);
    VisitsYears(cols, D, y);
  }

  /** Every year's value is the sum of the shares of the columns covering it. */
  lemma ScheduleValue(cols: seq<Investment>, D: int, y: int)
    requires y in Schedule(cols, D).values
    ensures Schedule(cols, D).values[y] == Due(cols, D, y)
  {
    FoldValue(Empty(), Visits(cols, D), y);
    VisitsYearTotal(cols, D, y);
  }

  /** With at least one depreciation year nothing is lost or created: the
      schedule adds up to the total investment. */
  lemma ScheduleConserves(cols: seq<Investment>, D: int)
    requires D >= 1
    ensures Valid(Schedule(cols, D))
    ensures Sum(Positional(Schedule(cols, D))) == Invested(cols)
  {
    FoldTotal(Empty(), Visits(cols, D));
    assert Positional(Empty()) == [];
    VisitsAmount(cols, D);
  }

  /** Keys keep first-insertion order: position t holds the t-th distinct year visited. */
  lemma ScheduleOrder(cols: seq<Investment>, D: int)
    ensures FirstInsertionOrder(Schedule(cols, D).keys, Years(Visits(cols, D)))
  {
    FoldOrder(Visits(cols, D));
  }

  /** Read by position, as the period model reads it, entry t is the
      depreciation due in the t-th year inserted. */
  lemma SchedulePositional(cols: seq<Investment>, D: int, t: nat)
    requires Valid(Schedule(cols, D)) && t < |Schedule(cols, D).keys|
    ensures Positional(Schedule(cols, D))[t] == Due(cols, D, Schedule(cols, D).keys[t])
  {
    ScheduleValue(cols, D, Schedule(cols, D).keys[t]);
  }

  /** Two columns, 30 in 2020 and 60 in 2021, written off over three years:
      2021 gets a third of each, 2023 only the second column's share, and
      2024 lies outside both windows. */
  lemma ScheduleExample()
    ensures 2021 in Schedule([Investment(2020, 30.0), Investment(2021, 60.0)], 3).values
    ensures Schedule([Investment(2020, 30.0), Investment(2021, 60.0)], 3).values[2021] == 30.0
    ensures 2023 in Schedule([Investment(2020, 30.0), Investment(2021, 60.0)], 3).values
    ensures Schedule([Investment(2020, 30.0), Investment(2021, 60.0)], 3).values[2023] == 20.0
    ensures 2024 !in Schedule([Investment(2020, 30.0), Investment(2021, 60.0)], 3).values
  {
    var cols := [Investment(2020, 30.0), Investment(2021, 60.0)];
    ScheduleKeys(cols, 3, 2021);
    ScheduleKeys(cols, 3, 2023);
    ScheduleKeys(cols, 3, 2024);
    assert cols[..1] == [cols[0]];
    assert Covered(cols, 3, 2021) by { assert cols[1].year <= 2021 < cols[1].year + 3; }
    assert Covered(cols, 3, 2023) by { assert cols[1].year <= 2023 < cols[1].year + 3; }
    assert cols[..1][..0] == [];
    assert Share(cols[0], 3) == 10.0 && Share(cols[1], 3) == 20.0;
    assert Due(cols[..1], 3, 2021) == 10.0;
    assert Due(cols[..1], 3, 2023) == 0.0;
    ScheduleValue(cols, 3, 2021);
    ScheduleValue(cols, 3, 2023);
  }
}
