/** The expected-NPV model over a set of sampled scenarios (sample average
    approximation) for one candidate substrate of width `w` and height `h`:
    the products-per-substrate table, the per-scenario period tables, the
    capacity constraint a production plan must meet, the objective (the
    scenario average of discounted NPV), the number of scenarios with a
    negative total and the averaged profit-and-loss lines. The plan itself is
    an input: it is what the external solver returns. */
module Saa {
  import opened Sums
  import opened Tiling
  import opened Finance

  /** Every scenario exposes the plan's products and periods; the horizon
      (and, through `Fits`, the product count) is the one of scenario 0. */
  predicate Consistent(data: seq<Scenario>, x: Plan)
  {
    && |data| > 0
    && x.periods == data[0].periods
    && forall s :: 0 <= s < |data| ==> Fits(data[s], x)
  }

  // ---------------------------------------------------------------------------
  // Products per substrate

  /** Fills the products-per-substrate table scenario by scenario and product
      by product; the product count is scenario 0's. */
  method BuildPoS(data: seq<Scenario>, w: real, h: real) returns (pos: seq<seq<Tiling>>)
    requires |data| > 0
    requires forall s :: 0 <= s < |data| ==> |data[s].sizes| >= |data[0].sizes|
    requires forall s :: 0 <= s < |data| ==>
               forall p :: 0 <= p < |data[0].sizes| ==> Positive(data[s].sizes[p])
    ensures |pos| == |data|
    ensures forall s :: 0 <= s < |data| ==> |pos[s]| == |data[0].sizes|
    ensures forall s, p :: 0 <= s < |data| && 0 <= p < |data[0].sizes| ==>
              pos[s][p] == Tile(w, h, data[s].sizes[p])
  {
    var n := |data[0].sizes|;
    pos := [];
    var s := 0;
    while s < |data|
      invariant 0 <= s <= |data| && |pos| == s
      invariant forall j :: 0 <= j < s ==> |pos[j]| == n
      invariant forall j, p :: 0 <= j < s && 0 <= p < n ==> pos[j][p] == Tile(w, h, data[j].sizes[p])
    {
      var row: seq<Tiling> := [];
      var p := 0;
      while p < n
        invariant 0 <= p <= n && |row| == p
        invariant forall q :: 0 <= q < p ==> row[q] == Tile(w, h, data[s].sizes[q])
      {
        var ps := data[s].sizes[p];
        var horW := (w / ps.width).Floor;
        var horH := (h / ps.height).Floor;
        var vertW := (w / ps.height).Floor;
        var vertH := (h / ps.width).Floor;
        var entry;
        if horW * horH >= vertW * vertH {
          entry := Tiling(horW, horH, horW * horH, Hor);
        } else {
          entry := Tiling(vertW, vertH, vertW * vertH, Vert);
        }
        row := row + [entry];
        p := p + 1;
      }
      pos := pos + [row];
      s := s + 1;
    }
  }

  // ---------------------------------------------------------------------------
  // Period tables

  datatype PeriodRow = PeriodRow(
    sales: real, costOfSales: real, costExDep: real, grossMargin: real,
    operatingMargin: real, netIncome: real, workingCapital: real,
    deltaWorkingCapital: real, netCashFlow: real, npv: real)

  /** The row of period t of one scenario, from the period model's definitions. */
  function RowOf(sc: Scenario, w: real, h: real, x: Plan, t: nat): PeriodRow
    requires Fits(sc, x) && t < x.periods
  {
    PeriodRow(
      Sales(sc, w, h, x, t), CostOfSales(sc, w, h, x, t), CostOfSalesExDep(sc, w, h, x, t),
      GrossMargin(sc, w, h, x, t), OperatingMargin(sc, w, h, x, t), NetIncome(sc, w, h, x, t),
      WorkingCapital(sc, w, h, x, t), DeltaWorkingCapital(sc, w, h, x, t),
      NetCashFlow(sc, w, h, x, t), Npv(sc, w, h, x, t))
  }

  predicate RowsOf(sc: Scenario, w: real, h: real, x: Plan, rows: seq<PeriodRow>)
  {
    Fits(sc, x) && |rows| == x.periods &&
    forall t :: 0 <= t < |rows| ==> rows[t] == RowOf(sc, w, h, x, t)
  }

  /** `tables` holds the period table of every scenario. */
  predicate Tabulated(data: seq<Scenario>, w: real, h: real, x: Plan, tables: seq<seq<PeriodRow>>)
  {
    Consistent(data, x) && |tables| == |data| &&
    forall s :: 0 <= s < |data| ==> RowsOf(data[s], w, h, x, tables[s])
  }

  /** `pos` is the products-per-substrate table of every scenario over the plan's products. */
  predicate PoSTable(data: seq<Scenario>, w: real, h: real, x: Plan, pos: seq<seq<Tiling>>)
    requires Consistent(data, x)
  {
    && |pos| == |data|
    && forall s :: 0 <= s < |data| ==>
         |pos[s]| >= |x.qty| && forall p :: 0 <= p < |x.qty| ==> pos[s][p] == Tile(w, h, data[s].sizes[p])
  }

  /** Sales of period t, summed product by product with the units read from
      the scenario's row of the products-per-substrate table. */
  method PeriodSales(sc: Scenario, w: real, h: real, x: Plan, t: nat, row: seq<Tiling>) returns (sales: real)
    requires Fits(sc, x) && t < x.periods
    requires |row| >= |x.qty| && forall p :: 0 <= p < |x.qty| ==> row[p] == Tile(w, h, sc.sizes[p])
    ensures sales == Sales(sc, w, h, x, t)
  {
    var terms := SalesTerms(sc, w, h, x, t);
    sales := 0.0;
    var p := 0;
    while p < |x.qty|
      invariant 0 <= p <= |x.qty|
      invariant sales == Sum(terms[..p])
    {
      assert terms[..p + 1][..p] == terms[..p];
      sales := sales + RevenueOf(sc.price[p][t], sc.yieldRate[p][t], row[p].numProducts as real, x.qty[p][t] as real);
      p := p + 1;
    }
    assert terms[..p] == terms;
  }

  /** Fills the period tables of every scenario, one period at a time, each
      line from the lines before it. The change in working capital of period t
      is taken from the working capital already recorded for period t-1, and
      the net cash flow uses it: this follows the written definitions. */
  method BuildPeriodTables(data: seq<Scenario>, w: real, h: real, x: Plan, pos: seq<seq<Tiling>>)
    returns (tables: seq<seq<PeriodRow>>)
    requires Consistent(data, x)
    requires PoSTable(data, w, h, x, pos)
    ensures Tabulated(data, w, h, x, tables)
  {
    tables := [];
    var s := 0;
    while s < |data|
      invariant 0 <= s <= |data| && |tables| == s
      invariant forall j :: 0 <= j < s ==> RowsOf(data[j], w, h, x, tables[j])
    {
      var sc := data[s];
      var ccc := (sc.dio + sc.dso - sc.dpo) / 365.0;
      var rows: seq<PeriodRow> := [];
      var t := 0;
      while t < x.periods
        invariant 0 <= t <= x.periods && |rows| == t
        invariant forall k :: 0 <= k < t ==> rows[k] == RowOf(sc, w, h, x, k)
      {
        var sales := PeriodSales(sc, w, h, x, t, pos[s]);
        var costExDep := CostOfSalesExDep(sc, w, h, x, t);
        var cost := costExDep + sc.depreciation[t];
        var gm := sales - cost;
        var om := OperatingMarginOf(gm, sales, sc.rd, sc.sga);
        var ni := NetIncomeOf(om, sc.taxRate);
        var wc := WorkingCapitalOf(sales, ccc);
        var dwc := if t == 0 then wc else rows[t - 1].workingCapital - wc;
        var ncf := ni + sc.depreciation[t] - dwc - sc.investment[t];
        var npv := Discounted(ncf, Pow(1.0 + sc.wacc, t));
        rows := rows + [PeriodRow(sales, cost, costExDep, gm, om, ni, wc, dwc, ncf, npv)];
        t := t + 1;
      }
      tables := tables + [rows];
      s := s + 1;
    }
  }

  // ---------------------------------------------------------------------------
  // Capacity

  function LoadTerms(x: Plan, t: nat): seq<real>
    requires PlanShaped(x) && t < x.periods
  {
    seq(|x.qty|, p requires 0 <= p < |x.qty| => x.qty[p][t] as real)
  }

  /** Substrates planned in period t over all products. */
  function PeriodLoad(x: Plan, t: nat): real
    requires PlanShaped(x) && t < x.periods
  {
    Sum(LoadTerms(x, t))
  }

  /** Yearly capacity: scenario 0's monthly capacity times twelve. */
  function Capacity(data: seq<Scenario>): real
    requires |data| > 0
  {
    data[0].maxCapacity * 12.0
  }

  /** A plan the model admits: integer (by its type), non-negative, within the
      yearly capacity in every period, and with sales and both costs of sales
      non-negative in every scenario and period (those three are solver
      variables with the default lower bound 0, tied to the plan by equations). */
  predicate Feasible(data: seq<Scenario>, w: real, h: real, x: Plan)
    requires Consistent(data, x)
  {
    && (forall p, t :: 0 <= p < |x.qty| && 0 <= t < x.periods ==> x.qty[p][t] >= 0)
    && (forall t :: 0 <= t < x.periods ==> PeriodLoad(x, t) <= Capacity(data))
    && LinesInBounds(data, w, h, x)
  }

  predicate LinesInBounds(data: seq<Scenario>, w: real, h: real, x: Plan)
    requires Consistent(data, x)
  {
    forall s, t :: 0 <= s < |data| && 0 <= t < x.periods ==>
      Sales(data[s], w, h, x, t) >= 0.0 && CostOfSalesExDep(data[s], w, h, x, t) >= 0.0
      && CostOfSales(data[s], w, h, x, t) >= 0.0
  }

  /** Scenario data with no negative price, yield, substrate cost or
      depreciation, on a substrate of non-negative size. */
  predicate NonNegativeData(data: seq<Scenario>, w: real, h: real, x: Plan)
    requires Consistent(data, x)
  {
    && w >= 0.0 && h >= 0.0
    && forall s, t :: 0 <= s < |data| && 0 <= t < x.periods ==>
         NonNegativePeriod(data[s], x, t)
  }

  /** On such data the three lower bounds follow from a non-negative plan:
      feasibility is then non-negativity and capacity alone. */
  lemma BoundsFollowFromData(data: seq<Scenario>, w: real, h: real, x: Plan)
    requires Consistent(data, x) && NonNegativeData(data, w, h, x)
    requires forall p, t :: 0 <= p < |x.qty| && 0 <= t < x.periods ==> x.qty[p][t] >= 0
    ensures LinesInBounds(data, w, h, x)
  {
    forall s, t | 0 <= s < |data| && 0 <= t < x.periods
      ensures Sales(data[s], w, h, x, t) >= 0.0 && CostOfSalesExDep(data[s], w, h, x, t) >= 0.0
              && CostOfSales(data[s], w, h, x, t) >= 0.0
    {
      LinesNonNegative(data[s], w, h, x, t);
    }
  }

  /** Checks the capacity constraint of every period, summing each period's
      load product by product. Only scenario 0's capacity is read. */
  method CapacityRespected(data: seq<Scenario>, x: Plan) returns (ok: bool)
    requires Consistent(data, x)
    ensures ok <==> forall t :: 0 <= t < x.periods ==> PeriodLoad(x, t) <= data[0].maxCapacity * 12.0
  {
    ok := true;
    var t := 0;
    while t < x.periods
      invariant 0 <= t <= x.periods
      invariant ok <==> forall k :: 0 <= k < t ==> PeriodLoad(x, k) <= Capacity(data)
    {
      var load := 0.0;
      var p := 0;
      while p < |x.qty|
        invariant 0 <= p <= |x.qty|
        invariant load == Sum(LoadTerms(x, t)[..p])
      {
        assert LoadTerms(x, t)[..p + 1][..p] == LoadTerms(x, t)[..p];
        load := load + x.qty[p][t] as real;
        p := p + 1;
      }
      assert LoadTerms(x, t)[..p] == LoadTerms(x, t);
      assert load == PeriodLoad(x, t);
      ok := ok && load <= data[0].maxCapacity * 12.0;
      t := t + 1;
    }
  }

  /** In a feasible plan every single quantity lies between 0 and the yearly capacity. */
  lemma FeasibleEntryBounds(data: seq<Scenario>, w: real, h: real, x: Plan, p: nat, t: nat)
    requires Consistent(data, x) && Feasible(data, w, h, x)
    requires p < |x.qty| && t < x.periods
    ensures 0 <= x.qty[p][t] && x.qty[p][t] as real <= data[0].maxCapacity * 12.0
  {
    assert forall q :: 0 <= q < |x.qty| ==> LoadTerms(x, t)[q] >= 0.0;
    ElementAtMostSum(LoadTerms(x, t), p);
    assert PeriodLoad(x, t) <= Capacity(data);
  }

  // ---------------------------------------------------------------------------
  // Objective and negative scenarios

  /** The per-scenario quantities of a period that the report reads: the
      statement averages all but depreciation (taken from the last scenario)
      and discounted NPV (summed into the objective). */
  datatype Line = SalesLine | CostExDepLine | GrossMarginLine | RdLine | SgaLine
                | OperatingMarginLine | TaxLine | NetIncomeLine | DepreciationLine | NpvLine

  function LineValue(sc: Scenario, w: real, h: real, x: Plan, t: nat, line: Line): real
    requires Fits(sc, x) && t < x.periods
  {
    match line
    case SalesLine => Sales(sc, w, h, x, t)
    case CostExDepLine => CostOfSalesExDep(sc, w, h, x, t)
    case GrossMarginLine => GrossMargin(sc, w, h, x, t)
    case RdLine => sc.rd
    case SgaLine => sc.sga
    case OperatingMarginLine => OperatingMargin(sc, w, h, x, t)
    case TaxLine => sc.taxRate
    case NetIncomeLine => NetIncome(sc, w, h, x, t)
    case DepreciationLine => sc.depreciation[t]
    case NpvLine => Npv(sc, w, h, x, t)
  }

  /** One line of period t, scenario by scenario. */
  function Across(data: seq<Scenario>, w: real, h: real, x: Plan, t: nat, line: Line): seq<real>
    requires Consistent(data, x) && t < x.periods
  {
    seq(|data|, s requires 0 <= s < |data| => LineValue(data[s], w, h, x, t, line))
  }

  /** The objective as the source writes it: one over the number of scenarios
      times the sum, over periods, of the sum over scenarios of discounted NPV. */
  function Objective(data: seq<Scenario>, w: real, h: real, x: Plan): real
    requires Consistent(data, x)
  {
    Average(|data|, Sum(PeriodNpvSums(data, w, h, x)))
  }

  /** Discounted NPV by scenario (rows) and period (columns). */
  function NpvMatrix(data: seq<Scenario>, w: real, h: real, x: Plan): (m: seq<seq<real>>)
    requires Consistent(data, x)
    ensures |m| == |data| && forall s :: 0 <= s < |m| ==> |m[s]| == x.periods
  {
    seq(|data|, s requires 0 <= s < |data| => NpvSeries(data[s], w, h, x))
  }

  /** For every period, the sum over scenarios of its discounted NPV. */
  function PeriodNpvSums(data: seq<Scenario>, w: real, h: real, x: Plan): seq<real>
    requires Consistent(data, x)
  {
    ColumnSums(NpvMatrix(data, w, h, x), x.periods)
  }

  /** Total discounted NPV of every scenario. */
  function Totals(data: seq<Scenario>, w: real, h: real, x: Plan): (r: seq<real>)
    requires Consistent(data, x)
    ensures |r| == |data| && forall s :: 0 <= s < |data| ==> r[s] == ScenarioNpv(data[s], w, h, x)
  {
    RowSums(NpvMatrix(data, w, h, x))
  }

  /** Adding discounted NPV period by period or scenario by scenario gives the same total. */
  lemma TotalsAddUpToPeriodSums(data: seq<Scenario>, w: real, h: real, x: Plan)
    requires Consistent(data, x)
    ensures Sum(Totals(data, w, h, x)) == Sum(PeriodNpvSums(data, w, h, x))
  {
    SumInterchange(NpvMatrix(data, w, h, x), x.periods);
  }

  /** The objective is the scenario average of the scenario totals. */
  lemma ObjectiveIsMeanOfTotals(data: seq<Scenario>, w: real, h: real, x: Plan)
    requires Consistent(data, x)
    ensures Objective(data, w, h, x) == Mean(Totals(data, w, h, x))
  {
    TotalsAddUpToPeriodSums(data, w, h, x);
  }

  /** Indexes of the scenarios whose total is strictly below zero. */
  function NegativeSet(totals: seq<real>): set<nat>
  {
    set s: nat | s < |totals| && totals[s] < 0.0
  }

  lemma NegativeSetStep(totals: seq<real>, i: nat)
    requires i < |totals|
    ensures NegativeSet(totals[..i + 1])
         == NegativeSet(totals[..i]) + (if totals[i] < 0.0 then {i} else {})
  {
  }

  /** Counts the scenarios with a negative total, one scenario at a time. */
  method CountNegativeScenarios(totals: seq<real>) returns (n: nat)
    ensures n == |NegativeSet(totals)|
    ensures n <= |totals|
    ensures n == 0 <==> forall s :: 0 <= s < |totals| ==> totals[s] >= 0.0
  {
    n := 0;
    var i := 0;
    while i < |totals|
      invariant 0 <= i <= |totals|
      invariant n == |NegativeSet(totals[..i])| && n <= i
    {
      NegativeSetStep(totals, i);
      if totals[i] < 0.0 {
        assert i !in NegativeSet(totals[..i]);
        n := n + 1;
      }
      i := i + 1;
    }
    assert totals[..i] == totals;
    NoNegativeSet(totals);
  }

  lemma NoNegativeSet(totals: seq<real>)
    ensures |NegativeSet(totals)| == 0 <==> forall s :: 0 <= s < |totals| ==> totals[s] >= 0.0
  {
    if |NegativeSet(totals)| != 0 {
      var s :| s in NegativeSet(totals);
    } else {
      forall s | 0 <= s < |totals| ensures totals[s] >= 0.0 {
        assert s !in NegativeSet(totals);
      }
    }
  }

  /** When every scenario total is negative, every scenario is counted. */
  lemma {:induction false} AllNegativeCounted(totals: seq<real>)
    requires forall s :: 0 <= s < |totals| ==> totals[s] < 0.0
    ensures |NegativeSet(totals)| == |totals|
  {
    if totals != [] {
      var n := |totals| - 1;
      AllNegativeCounted(totals[..n]);
      NegativeSetStep(totals, n);
      assert totals[..n + 1] == totals;
      assert n !in NegativeSet(totals[..n]);
    }
  }

  /** With identical scenarios the objective is that scenario's total, and the
      negative count is zero when the total is non-negative and the number of
      scenarios when it is negative. */
  lemma IdenticalScenarios(data: seq<Scenario>, w: real, h: real, x: Plan)
    requires Consistent(data, x)
    requires forall s :: 0 <= s < |data| ==> data[s] == data[0]
    ensures Objective(data, w, h, x) == ScenarioNpv(data[0], w, h, x)
    ensures ScenarioNpv(data[0], w, h, x) >= 0.0 ==> |NegativeSet(Totals(data, w, h, x))| == 0
    ensures ScenarioNpv(data[0], w, h, x) < 0.0 ==> |NegativeSet(Totals(data, w, h, x))| == |data|
  {
    var totals := Totals(data, w, h, x);
    ObjectiveIsMeanOfTotals(data, w, h, x);
    MeanConstant(totals, ScenarioNpv(data[0], w, h, x));
    if ScenarioNpv(data[0], w, h, x) < 0.0 {
      AllNegativeCounted(totals);
    } else {
      assert NegativeSet(totals) == {};
    }
  }

  // ---------------------------------------------------------------------------
  // Profit and loss

  /** One period of the profit-and-loss statement. */
  datatype PLEntry = PLEntry(
    sales: real, cos: real, gm: real, rd: real, sga: real, depreciation: real,
    om: real, tax: real, ni: real)

  /** Every line is the scenario average, except depreciation, which is the
      value of the last scenario (the one the scenario loop ends on). */
  function PLAt(data: seq<Scenario>, w: real, h: real, x: Plan, t: nat): PLEntry
    requires Consistent(data, x) && t < x.periods
  {
    PLEntry(
      Mean(Across(data, w, h, x, t, SalesLine)),
      Mean(Across(data, w, h, x, t, CostExDepLine)),
      Mean(Across(data, w, h, x, t, GrossMarginLine)),
      Mean(Across(data, w, h, x, t, RdLine)),
      Mean(Across(data, w, h, x, t, SgaLine)),
      data[|data| - 1].depreciation[t],
      Mean(Across(data, w, h, x, t, OperatingMarginLine)),
      Mean(Across(data, w, h, x, t, TaxLine)),
      Mean(Across(data, w, h, x, t, NetIncomeLine)))
  }

  function PLSeries(data: seq<Scenario>, w: real, h: real, x: Plan): seq<PLEntry>
    requires Consistent(data, x)
  {
    seq(x.periods, t requires 0 <= t < x.periods => PLAt(data, w, h, x, t))
  }

  /** Averages are taken line by line, so the averaged gross margin is the
      averaged sales minus the averaged cost without depreciation minus the
      averaged depreciation. */
  lemma PLGrossMarginIdentity(data: seq<Scenario>, w: real, h: real, x: Plan, t: nat)
    requires Consistent(data, x) && t < x.periods
    ensures PLAt(data, w, h, x, t).gm
         == PLAt(data, w, h, x, t).sales - PLAt(data, w, h, x, t).cos
            - Mean(Across(data, w, h, x, t, DepreciationLine))
  {
    GrossMarginTotals(data, w, h, x, t);
    AverageOfDifference(|data|, Sum(Across(data, w, h, x, t, SalesLine)),
                        Sum(Across(data, w, h, x, t, CostExDepLine)),
                        Sum(Across(data, w, h, x, t, DepreciationLine)));
  }

  /** Summed over scenarios, gross margin is sales less cost without depreciation less depreciation. */
  lemma GrossMarginTotals(data: seq<Scenario>, w: real, h: real, x: Plan, t: nat)
    requires Consistent(data, x) && t < x.periods
    ensures Sum(Across(data, w, h, x, t, GrossMarginLine))
         == Sum(Across(data, w, h, x, t, SalesLine)) - Sum(Across(data, w, h, x, t, CostExDepLine))
            - Sum(Across(data, w, h, x, t, DepreciationLine))
  {
    var sales := Across(data, w, h, x, t, SalesLine);
    var gm := Across(data, w, h, x, t, GrossMarginLine);
    var cos := Across(data, w, h, x, t, CostExDepLine);
    var dep := Across(data, w, h, x, t, DepreciationLine);
    var cost := seq(|data|, s requires 0 <= s < |data| => cos[s] + dep[s]);
    SumPointwise(cos, dep, cost);
    forall s | 0 <= s < |data|
      ensures sales[s] == gm[s] + cost[s]
    {
    }
    SumPointwise(gm, cost, sales);
  }

  /** With identical scenarios every averaged line is that scenario's own
      value, and the depreciation entry equals the averaged depreciation. */
  lemma PLIdenticalScenarios(data: seq<Scenario>, w: real, h: real, x: Plan, t: nat)
    requires Consistent(data, x) && t < x.periods
    requires forall s :: 0 <= s < |data| ==> data[s] == data[0]
    ensures PLAt(data, w, h, x, t) == PLEntry(
      Sales(data[0], w, h, x, t), CostOfSalesExDep(data[0], w, h, x, t),
      GrossMargin(data[0], w, h, x, t), data[0].rd, data[0].sga, data[0].depreciation[t],
      OperatingMargin(data[0], w, h, x, t), data[0].taxRate, NetIncome(data[0], w, h, x, t))
    ensures PLAt(data, w, h, x, t).depreciation == Mean(Across(data, w, h, x, t, DepreciationLine))
  {
    forall line: Line
      ensures Mean(Across(data, w, h, x, t, line)) == LineValue(data[0], w, h, x, t, line)
    {
      MeanConstant(Across(data, w, h, x, t, line), LineValue(data[0], w, h, x, t, line));
    }
  }

  /** Line `line` of a scenario as read from its period row (or, for the
      rates and depreciation, from the scenario data). */
  function RowLine(sc: Scenario, row: PeriodRow, t: nat, line: Line): real
    requires t < |sc.depreciation|
  {
    match line
    case SalesLine => row.sales
    case CostExDepLine => row.costExDep
    case GrossMarginLine => row.grossMargin
    case RdLine => sc.rd
    case SgaLine => sc.sga
    case OperatingMarginLine => row.operatingMargin
    case TaxLine => sc.taxRate
    case NetIncomeLine => row.netIncome
    case DepreciationLine => sc.depreciation[t]
    case NpvLine => row.npv
  }

  /** Line `line` of period t, scenario by scenario, read from the tables. */
  function TableLine(data: seq<Scenario>, w: real, h: real, x: Plan, tables: seq<seq<PeriodRow>>,
                     t: nat, line: Line): seq<real>
    requires Tabulated(data, w, h, x, tables) && t < x.periods
  {
    seq(|data|, s requires 0 <= s < |data| => RowLine(data[s], tables[s][t], t, line))
  }

  /** The tables hold the period model's values. */
  lemma TableLineIsAcross(data: seq<Scenario>, w: real, h: real, x: Plan, tables: seq<seq<PeriodRow>>,
                          t: nat, line: Line)
    requires Tabulated(data, w, h, x, tables) && t < x.periods
    ensures TableLine(data, w, h, x, tables, t, line) == Across(data, w, h, x, t, line)
  {
    forall s | 0 <= s < |data|
      ensures TableLine(data, w, h, x, tables, t, line)[s] == Across(data, w, h, x, t, line)[s]
    {
      assert RowsOf(data[s], w, h, x, tables[s]);
      assert tables[s][t] == RowOf(data[s], w, h, x, t);
    }
  }

  /** Builds the profit-and-loss statement period by period from the period
      tables, averaging each line over the scenarios. */
  method BuildPL(data: seq<Scenario>, w: real, h: real, x: Plan, tables: seq<seq<PeriodRow>>)
    returns (pl: seq<PLEntry>)
    requires Tabulated(data, w, h, x, tables)
    ensures pl == PLSeries(data, w, h, x)
  {
    var n := |data|;
    pl := [];
    var t := 0;
    while t < x.periods
      invariant 0 <= t <= x.periods && |pl| == t
      invariant forall k :: 0 <= k < t ==> pl[k] == PLAt(data, w, h, x, k)
    {
      forall line: Line
        ensures TableLine(data, w, h, x, tables, t, line) == Across(data, w, h, x, t, line)
      {
        TableLineIsAcross(data, w, h, x, tables, t, line);
      }
      var entry := PLEntry(
        Mean(TableLine(data, w, h, x, tables, t, SalesLine)),
        Mean(TableLine(data, w, h, x, tables, t, CostExDepLine)),
        Mean(TableLine(data, w, h, x, tables, t, GrossMarginLine)),
        Mean(TableLine(data, w, h, x, tables, t, RdLine)),
        Mean(TableLine(data, w, h, x, tables, t, SgaLine)),
        data[n - 1].depreciation[t],
        Mean(TableLine(data, w, h, x, tables, t, OperatingMarginLine)),
        Mean(TableLine(data, w, h, x, tables, t, TaxLine)),
        Mean(TableLine(data, w, h, x, tables, t, NetIncomeLine)));
      pl := pl + [entry];
      t := t + 1;
    }
  }

  // ---------------------------------------------------------------------------
  // The evaluation of one substrate size

  /** The discounted NPV line of one scenario's table. */
  function NpvsOf(rows: seq<PeriodRow>): seq<real>
  {
    seq(|rows|, t requires 0 <= t < |rows| => rows[t].npv)
  }

  /** Total discounted NPV of every scenario, read from the tables. */
  function TableTotals(tables: seq<seq<PeriodRow>>): seq<real>
  {
    seq(|tables|, s requires 0 <= s < |tables| => Sum(NpvsOf(tables[s])))
  }

  /** For every period, the sum over scenarios of discounted NPV, read from the tables. */
  function TablePeriodSums(data: seq<Scenario>, w: real, h: real, x: Plan, tables: seq<seq<PeriodRow>>): seq<real>
    requires Tabulated(data, w, h, x, tables)
  {
    seq(x.periods, t requires 0 <= t < x.periods => Sum(TableLine(data, w, h, x, tables, t, NpvLine)))
  }

  lemma TableTotalsAreTotals(data: seq<Scenario>, w: real, h: real, x: Plan, tables: seq<seq<PeriodRow>>)
    requires Tabulated(data, w, h, x, tables)
    ensures TableTotals(tables) == Totals(data, w, h, x)
  {
    forall s | 0 <= s < |data|
      ensures NpvsOf(tables[s]) == NpvSeries(data[s], w, h, x)
    {
      assert RowsOf(data[s], w, h, x, tables[s]);
    }
  }

  lemma TablePeriodSumsArePeriodNpvSums(data: seq<Scenario>, w: real, h: real, x: Plan,
                                         tables: seq<seq<PeriodRow>>)
    requires Tabulated(data, w, h, x, tables)
    ensures TablePeriodSums(data, w, h, x, tables) == PeriodNpvSums(data, w, h, x)
  {
    var m := NpvMatrix(data, w, h, x);
    forall t | 0 <= t < x.periods
      ensures TableLine(data, w, h, x, tables, t, NpvLine) == Column(m, t)
    {
      forall s | 0 <= s < |data|
        ensures TableLine(data, w, h, x, tables, t, NpvLine)[s] == Column(m, t)[s]
      {
        assert RowsOf(data[s], w, h, x, tables[s]);
        assert tables[s][t] == RowOf(data[s], w, h, x, t);
      }
    }
  }

  datatype Report = Report(
    averageNpv: real, width: real, height: real, negativeScenarios: nat, pl: seq<PLEntry>)

  /** Without scenarios, or without periods, the source fails before it
      reports: it reads scenario 0, and it sets the period-0 change in working
      capital of a table that has no period 0. */
  datatype Evaluation = Evaluated(report: Report) | NoScenarios | NoPeriods

  /** The report for plan `x` on substrate `w` by `h`: the objective, the
      substrate size, the number of scenarios with a negative total NPV and the
      profit-and-loss statement. The products-per-substrate table is built
      first and the period tables read their units from it. */
  method NpvSaa(data: seq<Scenario>, w: real, h: real, x: Plan) returns (e: Evaluation)
    requires data != [] ==> Consistent(data, x)
    ensures data == [] <==> e == NoScenarios
    ensures data != [] && x.periods == 0 <==> e == NoPeriods
    ensures data != [] && x.periods > 0 ==>
              e == Evaluated(Report(Objective(data, w, h, x), w, h,
                                    |NegativeSet(Totals(data, w, h, x))|, PLSeries(data, w, h, x)))
    ensures data != [] && x.periods > 0 ==> e.report.averageNpv == Mean(Totals(data, w, h, x))
    ensures data != [] && x.periods > 0 ==> e.report.negativeScenarios <= |data|
  {
    if data == [] {
      return NoScenarios;
    }
    var pos := BuildPoS(data, w, h);
    if x.periods == 0 {
      return NoPeriods;
    }
    var tables: seq<seq<PeriodRow>> := BuildPeriodTables(data, w, h, x, pos);
    var totals := TableTotals(tables);
    var obj := Average(|data|, Sum(TablePeriodSums(data, w, h, x, tables)));
    TableTotalsAreTotals(data, w, h, x, tables);
    TablePeriodSumsArePeriodNpvSums(data, w, h, x, tables);
    ObjectiveIsMeanOfTotals(data, w, h, x);
    var negative := CountNegativeScenarios(totals);
    var pl := BuildPL(data, w, h, x, tables);
    e := Evaluated(Report(obj, w, h, negative, pl));
  }

  // ---------------------------------------------------------------------------
  // A one-scenario, one-period, one-product instance

  /** Price 100, yield 0.9, substrate cost 10 per square metre, tax 25%, R&D 5%,
      SG&A 3%, no depreciation, investment, cost of capital or working capital,
      capacity 100 substrates per year; a 1 m by 0.5 m product on a 2 m by 1 m
      substrate (area 2) fits 4 times. */
  function ToyScenario(): Scenario
  {
    Scenario([ProductSize(0.5, 1.0)], 1, [[100.0]], [[0.9]], [10.0], [0.0], [0.0],
             100.0 / 12.0, 0.05, 0.03, 0.25, 0.0, 0.0, 0.0, 0.0)
  }

  lemma ToyUnits()
    ensures Tile(2.0, 1.0, ToyScenario().sizes[0]).numProducts == 4
  {
    var ps := ToyScenario().sizes[0];
    assert HorColumns(2.0, ps) == 2;
    assert HorRows(1.0, ps) == 2;
    assert VertColumns(2.0, ps) == 4;
    assert VertRows(1.0, ps) == 1;
  }

  /** Sales of q substrates: 100 * 0.9 * 4 per substrate. */
  lemma ToySales(q: int)
    ensures Fits(ToyScenario(), Plan(1, [[q]]))
    ensures Sales(ToyScenario(), 2.0, 1.0, Plan(1, [[q]]), 0) == 360.0 * (q as real)
  {
    var sc, x := ToyScenario(), Plan(1, [[q]]);
    assert Fits(sc, x);
    ToyUnits();
    assert SalesTerms(sc, 2.0, 1.0, x, 0) == [SalesTerm(sc, 2.0, 1.0, x, 0, 0)];
    SumSingleton(SalesTerm(sc, 2.0, 1.0, x, 0, 0));
  }

  /** Substrate cost of q substrates: 10 per square metre on 2 square metres. */
  lemma ToyCost(q: int)
    ensures Fits(ToyScenario(), Plan(1, [[q]]))
    ensures CostOfSalesExDep(ToyScenario(), 2.0, 1.0, Plan(1, [[q]]), 0) == 20.0 * (q as real)
  {
    var sc, x := ToyScenario(), Plan(1, [[q]]);
    assert Fits(sc, x);
    assert CostTerms(sc, 2.0, 1.0, x, 0) == [CostTerm(sc, 2.0, 1.0, x, 0, 0)];
    SumSingleton(CostTerm(sc, 2.0, 1.0, x, 0, 0));
  }

  /** No working capital is tied up: the cash conversion cycle is zero. */
  lemma ToyWorkingCapital(q: int)
    ensures Fits(ToyScenario(), Plan(1, [[q]]))
    ensures DeltaWorkingCapital(ToyScenario(), 2.0, 1.0, Plan(1, [[q]]), 0) == 0.0
  {
    ToySales(q);
  }

  /** The line formulas on the instance's rates, for sales of 360 and a substrate cost of 20 per substrate. */
  lemma ToyLineFormulas(sales: real, cost: real, r: real)
    requires sales == 360.0 * r && cost == 20.0 * r
    ensures NetIncomeOf(OperatingMarginOf(sales - (cost + 0.0), sales, 0.05, 0.03), 0.25) == 233.4 * r
  {
  }

  /** Each substrate earns (1 - tax) * (sales - cost - (RD + SGA) * sales) = 0.75 * (360 - 20 - 28.8),
      that is 233.4, with no depreciation, investment or working capital. */
  lemma ToyCashFlow(q: int)
    ensures Fits(ToyScenario(), Plan(1, [[q]]))
    ensures NetCashFlow(ToyScenario(), 2.0, 1.0, Plan(1, [[q]]), 0) == 233.4 * (q as real)
  {
    ToySales(q);
    ToyCost(q);
    ToyWorkingCapital(q);
    ToyCashFlowFrom(q, 360.0 * (q as real), 20.0 * (q as real));
  }

  lemma ToyCashFlowFrom(q: int, sales: real, cost: real)
    requires Fits(ToyScenario(), Plan(1, [[q]]))
    requires sales == Sales(ToyScenario(), 2.0, 1.0, Plan(1, [[q]]), 0) == 360.0 * (q as real)
    requires cost == CostOfSalesExDep(ToyScenario(), 2.0, 1.0, Plan(1, [[q]]), 0) == 20.0 * (q as real)
    requires DeltaWorkingCapital(ToyScenario(), 2.0, 1.0, Plan(1, [[q]]), 0) == 0.0
    ensures NetCashFlow(ToyScenario(), 2.0, 1.0, Plan(1, [[q]]), 0) == 233.4 * (q as real)
  {
    NetCashFlowFromLines(ToyScenario(), 2.0, 1.0, Plan(1, [[q]]), 0);
    ToyLineFormulas(sales, cost, q as real);
  }

  /** Period 0 is not discounted. */
  lemma ToyNpv(q: int)
    ensures Fits(ToyScenario(), Plan(1, [[q]]))
    ensures Npv(ToyScenario(), 2.0, 1.0, Plan(1, [[q]]), 0) == 233.4 * (q as real)
  {
    ToyCashFlow(q);
    Undiscounted(ToyScenario(), 2.0, 1.0, Plan(1, [[q]]), 0);
  }

  lemma ToyAcross(q: int)
    ensures Consistent([ToyScenario()], Plan(1, [[q]]))
    ensures Column(NpvMatrix([ToyScenario()], 2.0, 1.0, Plan(1, [[q]])), 0) == [233.4 * (q as real)]
  {
    ToyNpv(q);
  }

  lemma ToyPeriodSums(q: int)
    ensures Consistent([ToyScenario()], Plan(1, [[q]]))
    ensures PeriodNpvSums([ToyScenario()], 2.0, 1.0, Plan(1, [[q]])) == [233.4 * (q as real)]
  {
    ToyAcross(q);
    SumSingleton(233.4 * (q as real));
  }

  /** With one scenario and one period the objective is that period's NPV: for
      q substrates it is 233.4 q. */
  lemma ToyObjective(q: int)
    ensures Consistent([ToyScenario()], Plan(1, [[q]]))
    ensures Objective([ToyScenario()], 2.0, 1.0, Plan(1, [[q]])) == 233.4 * (q as real)
  {
    ToyPeriodSums(q);
    SumSingleton(233.4 * (q as real));
  }

  /** 100 substrates fill the yearly capacity exactly. */
  lemma ToyFullCapacity()
    ensures Consistent([ToyScenario()], Plan(1, [[100]]))
    ensures Feasible([ToyScenario()], 2.0, 1.0, Plan(1, [[100]]))
  {
    ToySales(100);
    ToyCost(100);
    assert LoadTerms(Plan(1, [[100]]), 0) == [100.0];
    SumSingleton(100.0);
  }

  /** Producing at capacity is optimal on this instance: 100 substrates are
      feasible, earn 23340, and no feasible plan earns more. */
  lemma ToyOptimum(q: int)
    requires Consistent([ToyScenario()], Plan(1, [[q]]))
    requires Feasible([ToyScenario()], 2.0, 1.0, Plan(1, [[q]]))
    ensures Feasible([ToyScenario()], 2.0, 1.0, Plan(1, [[100]]))
    ensures Objective([ToyScenario()], 2.0, 1.0, Plan(1, [[100]])) == 23340.0
    ensures Objective([ToyScenario()], 2.0, 1.0, Plan(1, [[q]])) <= 23340.0
  {
    ToyObjective(q);
    ToyObjective(100);
    FeasibleEntryBounds([ToyScenario()], 2.0, 1.0, Plan(1, [[q]]), 0, 0);
    ToyFullCapacity();
  }

  /** The same instance, with 36.5 days of sales outstanding: a cash
      conversion cycle of a tenth of a year. */
  function ToyCreditScenario(): Scenario
  {
    Scenario([ProductSize(0.5, 1.0)], 1, [[100.0]], [[0.9]], [10.0], [0.0], [0.0],
             100.0 / 12.0, 0.05, 0.03, 0.25, 0.0, 0.0, 36.5, 0.0)
  }

  /** One substrate sells for 360, so 36 is tied up as working capital: the
      written cash flow is 197.4, while the solver is handed 233.4. */
  lemma ToyWorkingCapitalDropped()
    ensures Fits(ToyCreditScenario(), Plan(1, [[1]]))
    ensures NetCashFlow(ToyCreditScenario(), 2.0, 1.0, Plan(1, [[1]]), 0) == 197.4
    ensures SolvedNetCashFlow(ToyCreditScenario(), 2.0, 1.0, Plan(1, [[1]]), 0) == 233.4
  {
    var sc, x := ToyCreditScenario(), Plan(1, [[1]]);
    assert Fits(sc, x);
    assert Tile(2.0, 1.0, sc.sizes[0]) == Tile(2.0, 1.0, ToyScenario().sizes[0]);
    ToyUnits();
    assert SalesTerms(sc, 2.0, 1.0, x, 0) == [SalesTerm(sc, 2.0, 1.0, x, 0, 0)];
    SumSingleton(SalesTerm(sc, 2.0, 1.0, x, 0, 0));
    assert Sales(sc, 2.0, 1.0, x, 0) == 360.0;
    assert CostTerms(sc, 2.0, 1.0, x, 0) == [CostTerm(sc, 2.0, 1.0, x, 0, 0)];
    SumSingleton(CostTerm(sc, 2.0, 1.0, x, 0, 0));
    assert CostOfSalesExDep(sc, 2.0, 1.0, x, 0) == 20.0;
    assert CashConversionCycle(sc) == 0.1;
    assert DeltaWorkingCapital(sc, 2.0, 1.0, x, 0) == 36.0;
    NetCashFlowFromLines(sc, 2.0, 1.0, x, 0);
    ToyLineFormulas(360.0, 20.0, 1.0);
    SolvedCashFlowDiffers(sc, 2.0, 1.0, x, 0);
  }
}
