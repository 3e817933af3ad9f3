/** The financial period model of one scenario: for a given production plan
    it defines, period by period, sales, cost of sales with and without
    depreciation, gross and operating margin, net income, working capital and
    its change, net cash flow and discounted net present value, and the
    scenario's total NPV. Every quantity is a function of the plan; real
    numbers here are exact. */
module Finance {
  import opened Sums
  import opened Tiling

  /** One sampled scenario. Series are indexed by the model period
      (period 0 is the first price column after the two label columns).
      `yieldRate[p]` is the yield of product p's market, already joined onto the
      product rows. `depreciation` is the depreciation table read by position. */
  datatype Scenario = Scenario(
    sizes: seq<ProductSize>,
    periods: nat,               // number of period columns in the price table
    price: seq<seq<real>>,      // price[p][t]
    yieldRate: seq<seq<real>>,  // yieldRate[p][t]
    substrateCost: seq<real>,   // cost per square metre of substrate, per period
    investment: seq<real>,      // investment outlay per period
    depreciation: seq<real>,    // depreciation per period
    maxCapacity: real,          // monthly substrate capacity
    rd: real,
    sga: real,
    taxRate: real,
    wacc: real,
    dpo: real,
    dso: real,
    dio: real)

  /** A production plan: `qty[p][t]` substrates of product p in period t. */
  datatype Plan = Plan(periods: nat, qty: seq<seq<int>>)

  predicate PlanShaped(x: Plan)
  {
    forall p :: 0 <= p < |x.qty| ==> |x.qty[p]| == x.periods
  }

  /** The scenario exposes every product and period the plan uses, its
      product sizes are positive and its discount base is not zero. */
  predicate Fits(sc: Scenario, x: Plan)
  {
    && PlanShaped(x)
    && |sc.sizes| == |x.qty| && |sc.price| == |x.qty| && |sc.yieldRate| == |x.qty|
    && (forall p :: 0 <= p < |x.qty| ==> Positive(sc.sizes[p]))
    && (forall p :: 0 <= p < |x.qty| ==> |sc.price[p]| >= x.periods)
    && (forall p :: 0 <= p < |x.qty| ==> |sc.yieldRate[p]| >= x.periods)
    && |sc.substrateCost| >= x.periods
    && |sc.investment| >= x.periods
    && |sc.depreciation| >= x.periods
    && sc.wacc != -1.0
  }

  // ---------------------------------------------------------------------------
  // The line formulas, on the values of the lines they combine

  /** Gross margin less the R&D and SG&A shares of sales. */
  function OperatingMarginOf(gm: real, sales: real, rd: real, sga: real): real
  {
    gm - sales * (rd + sga)
  }

  /** Operating margin after tax. */
  function NetIncomeOf(om: real, taxRate: real): real
  {
    (1.0 - taxRate) * om
  }

  /** Sales tied up for the cash conversion cycle (in years). */
  function WorkingCapitalOf(sales: real, ccc: real): real
  {
    sales * ccc
  }

  /** A cash flow divided by its discount factor. */
  function Discounted(ncf: real, base: real): real
    requires base != 0.0
  {
    ncf / base
  }

  lemma DiscountedUndone(ncf: real, base: real)
    requires base != 0.0
    ensures Discounted(ncf, base) * base == ncf
    ensures base == 1.0 ==> Discounted(ncf, base) == ncf
  {
  }

  // ---------------------------------------------------------------------------
  // The period model of a scenario

  /** Products per substrate for product p (the `num_products` entry). */
  function Units(sc: Scenario, w: real, h: real, p: nat): real
    requires p < |sc.sizes| && Positive(sc.sizes[p])
  {
    Tile(w, h, sc.sizes[p]).numProducts as real
  }

  /** Revenue of `qty` substrates holding `units` copies each, sold at `price` with yield `yieldRate`. */
  function RevenueOf(price: real, yieldRate: real, units: real, qty: real): real
  {
    price * yieldRate * units * qty
  }

  function SalesTerm(sc: Scenario, w: real, h: real, x: Plan, p: nat, t: nat): real
    requires Fits(sc, x) && p < |x.qty| && t < x.periods
  {
    RevenueOf(sc.price[p][t], sc.yieldRate[p][t], Units(sc, w, h, p), x.qty[p][t] as real)
  }

  function SalesTerms(sc: Scenario, w: real, h: real, x: Plan, t: nat): seq<real>
    requires Fits(sc, x) && t < x.periods
  {
    seq(|x.qty|, p requires 0 <= p < |x.qty| => SalesTerm(sc, w, h, x, p, t))
  }

  function Sales(sc: Scenario, w: real, h: real, x: Plan, t: nat): real
    requires Fits(sc, x) && t < x.periods
  {
    Sum(SalesTerms(sc, w, h, x, t))
  }

  /** Substrate cost of product p: cost per square metre times the substrate area `w*h`. */
  function CostTerm(sc: Scenario, w: real, h: real, x: Plan, p: nat, t: nat): real
    requires Fits(sc, x) && p < |x.qty| && t < x.periods
  {
    sc.substrateCost[t] * (w * h) * (x.qty[p][t] as real)
  }

  function CostTerms(sc: Scenario, w: real, h: real, x: Plan, t: nat): seq<real>
    requires Fits(sc, x) && t < x.periods
  {
    seq(|x.qty|, p requires 0 <= p < |x.qty| => CostTerm(sc, w, h, x, p, t))
  }

  /** Cost of sales without depreciation. */
  function CostOfSalesExDep(sc: Scenario, w: real, h: real, x: Plan, t: nat): real
    requires Fits(sc, x) && t < x.periods
  {
    Sum(CostTerms(sc, w, h, x, t))
  }

  function CostOfSales(sc: Scenario, w: real, h: real, x: Plan, t: nat): real
    requires Fits(sc, x) && t < x.periods
  {
    CostOfSalesExDep(sc, w, h, x, t) + sc.depreciation[t]
  }

  function GrossMargin(sc: Scenario, w: real, h: real, x: Plan, t: nat): real
    requires Fits(sc, x) && t < x.periods
  {
    Sales(sc, w, h, x, t) - CostOfSales(sc, w, h, x, t)
  }

  function OperatingMargin(sc: Scenario, w: real, h: real, x: Plan, t: nat): real
    requires Fits(sc, x) && t < x.periods
  {
    OperatingMarginOf(GrossMargin(sc, w, h, x, t), Sales(sc, w, h, x, t), sc.rd, sc.sga)
  }

  function NetIncome(sc: Scenario, w: real, h: real, x: Plan, t: nat): real
    requires Fits(sc, x) && t < x.periods
  {
    NetIncomeOf(OperatingMargin(sc, w, h, x, t), sc.taxRate)
  }

  /** Cash conversion cycle in years; one value per scenario. */
  function CashConversionCycle(sc: Scenario): real
  {
    (sc.dio + sc.dso - sc.dpo) / 365.0
  }

  // Working capital, its change and the net cash flow follow the written
  // definitions: the cash conversion cycle and the change in working capital
  // they use are the values the scenario defines for them.

  function WorkingCapital(sc: Scenario, w: real, h: real, x: Plan, t: nat): real
    requires Fits(sc, x) && t < x.periods
  {
    WorkingCapitalOf(Sales(sc, w, h, x, t), CashConversionCycle(sc))
  }

  /** Change in working capital: the level itself in period 0, then the
      previous level minus the current one. */
  function DeltaWorkingCapital(sc: Scenario, w: real, h: real, x: Plan, t: nat): real
    requires Fits(sc, x) && t < x.periods
  {
    if t == 0 then WorkingCapital(sc, w, h, x, 0)
    else WorkingCapital(sc, w, h, x, t - 1) - WorkingCapital(sc, w, h, x, t)
  }

  function NetCashFlow(sc: Scenario, w: real, h: real, x: Plan, t: nat): real
    requires Fits(sc, x) && t < x.periods
  {
    NetIncome(sc, w, h, x, t) + sc.depreciation[t]
      - DeltaWorkingCapital(sc, w, h, x, t) - sc.investment[t]
  }

  /** No negative price, yield, substrate cost or depreciation in period t. */
  predicate NonNegativePeriod(sc: Scenario, x: Plan, t: nat)
    requires Fits(sc, x) && t < x.periods
  {
    && (forall p :: 0 <= p < |x.qty| ==> sc.price[p][t] >= 0.0 && sc.yieldRate[p][t] >= 0.0)
    && sc.substrateCost[t] >= 0.0 && sc.depreciation[t] >= 0.0
  }

  /** With such data, a non-negative plan and a substrate of non-negative size,
      sales and both costs of sales are non-negative. */
  lemma LinesNonNegative(sc: Scenario, w: real, h: real, x: Plan, t: nat)
    requires Fits(sc, x) && t < x.periods && NonNegativePeriod(sc, x, t)
    requires w >= 0.0 && h >= 0.0
    requires forall p :: 0 <= p < |x.qty| ==> x.qty[p][t] >= 0
    ensures Sales(sc, w, h, x, t) >= 0.0
    ensures CostOfSalesExDep(sc, w, h, x, t) >= 0.0
    ensures CostOfSales(sc, w, h, x, t) >= 0.0
  {
    var sales := SalesTerms(sc, w, h, x, t);
    var costs := CostTerms(sc, w, h, x, t);
    forall p | 0 <= p < |x.qty|
      ensures sales[p] >= 0.0 && costs[p] >= 0.0
    {
      TileNonNegative(w, h, sc.sizes[p]);
      ProductNonNegative(sc.price[p][t] * sc.yieldRate[p][t], Units(sc, w, h, p), x.qty[p][t] as real,
                         sc.price[p][t], sc.yieldRate[p][t]);
      ProductNonNegative(w * h, 1.0, 1.0, w, h);
      ProductNonNegative(sc.substrateCost[t] * (w * h), x.qty[p][t] as real, 1.0, sc.substrateCost[t], w * h);
      assert sales[p] == RevenueOf(sc.price[p][t], sc.yieldRate[p][t], Units(sc, w, h, p), x.qty[p][t] as real);
    }
    SumNonNegative(sales);
    SumNonNegative(costs);
  }

  /** `a * b * c` is non-negative when its factors are, with `a` itself the product `a1 * a2`. */
  lemma ProductNonNegative(a: real, b: real, c: real, a1: real, a2: real)
    requires a == a1 * a2 && a1 >= 0.0 && a2 >= 0.0 && b >= 0.0 && c >= 0.0
    ensures a >= 0.0 && a * b >= 0.0 && a * b * c >= 0.0
  {
    assert a >= 0.0;
    assert a * b >= 0.0;
  }

  // ---------------------------------------------------------------------------
  // The cash flow the solver is handed

  /** The net cash flow as the solver sees it. The source builds each period's
      cash flow from the solver variable for the change in working capital
      (declared with the other per-period variables), not from the value it
      assigns to that name afterwards. The variable is continuous, bounded
      below by 0 and in no constraint; with a positive discount factor its
      objective coefficient is negative, so the maximum sets it to 0 and the
      working-capital term drops out. */
  function SolvedNetCashFlow(sc: Scenario, w: real, h: real, x: Plan, t: nat): real
    requires Fits(sc, x) && t < x.periods
  {
    NetIncome(sc, w, h, x, t) + sc.depreciation[t] - sc.investment[t]
  }

  /** The solved cash flow exceeds the written one by the change in working
      capital, so the two differ exactly when that change is not zero. */
  lemma SolvedCashFlowDiffers(sc: Scenario, w: real, h: real, x: Plan, t: nat)
    requires Fits(sc, x) && t < x.periods
    ensures SolvedNetCashFlow(sc, w, h, x, t) == NetCashFlow(sc, w, h, x, t) + DeltaWorkingCapital(sc, w, h, x, t)
    ensures SolvedNetCashFlow(sc, w, h, x, t) != NetCashFlow(sc, w, h, x, t)
            <==> DeltaWorkingCapital(sc, w, h, x, t) != 0.0
  {
  }

  /** In particular they differ in period 0 whenever there are sales and the
      cash conversion cycle is not zero. */
  lemma SolvedCashFlowDiffersAtStart(sc: Scenario, w: real, h: real, x: Plan)
    requires Fits(sc, x) && 0 < x.periods
    ensures Sales(sc, w, h, x, 0) != 0.0 && CashConversionCycle(sc) != 0.0
            ==> SolvedNetCashFlow(sc, w, h, x, 0) != NetCashFlow(sc, w, h, x, 0)
  {
    if Sales(sc, w, h, x, 0) != 0.0 && CashConversionCycle(sc) != 0.0 {
      NonZeroProduct(Sales(sc, w, h, x, 0), CashConversionCycle(sc), WorkingCapital(sc, w, h, x, 0));
      SolvedCashFlowDiffers(sc, w, h, x, 0);
    }
  }

  function CashFlowSeries(sc: Scenario, w: real, h: real, x: Plan, n: nat): seq<real>
    requires Fits(sc, x) && n <= x.periods
  {
    seq(n, t requires 0 <= t < n => NetCashFlow(sc, w, h, x, t))
  }

  function SolvedCashFlowSeries(sc: Scenario, w: real, h: real, x: Plan, n: nat): seq<real>
    requires Fits(sc, x) && n <= x.periods
  {
    seq(n, t requires 0 <= t < n => SolvedNetCashFlow(sc, w, h, x, t))
  }

  /** Over the first n periods the written cash flows add up to the solved ones
      less twice the first working-capital level plus the last one: the only
      difference the working-capital change makes in total. */
  lemma NetCashFlowTotal(sc: Scenario, w: real, h: real, x: Plan, n: nat)
    requires Fits(sc, x) && 1 <= n <= x.periods
    ensures Sum(CashFlowSeries(sc, w, h, x, n))
         == Sum(SolvedCashFlowSeries(sc, w, h, x, n))
            - (2.0 * WorkingCapital(sc, w, h, x, 0) - WorkingCapital(sc, w, h, x, n - 1))
  {
    forall t | 0 <= t < n
      ensures SolvedCashFlowSeries(sc, w, h, x, n)[t]
           == CashFlowSeries(sc, w, h, x, n)[t] + DeltaSeries(sc, w, h, x, n)[t]
    {
      SolvedCashFlowDiffers(sc, w, h, x, t);
    }
    SumPointwise(CashFlowSeries(sc, w, h, x, n), DeltaSeries(sc, w, h, x, n), SolvedCashFlowSeries(sc, w, h, x, n));
    DeltaWorkingCapitalTotal(sc, w, h, x, n);
  }

  lemma NonZeroProduct(a: real, b: real, r: real)
    requires a != 0.0 && b != 0.0 && r == a * b
    ensures r != 0.0
  {
  }

  /** `b` raised to the natural power `n`. */
  function Pow(b: real, n: nat): (r: real)
    ensures b != 0.0 ==> r != 0.0
    ensures b > 0.0 ==> r > 0.0
  {
    if n == 0 then 1.0 else b * Pow(b, n - 1)
  }

  /** The discount factor of period t; the exponent is the zero-based period index. */
  function DiscountBase(sc: Scenario, t: nat): real
  {
    Pow(1.0 + sc.wacc, t)
  }

  function Npv(sc: Scenario, w: real, h: real, x: Plan, t: nat): real
    requires Fits(sc, x) && t < x.periods
  {
    Discounted(NetCashFlow(sc, w, h, x, t), DiscountBase(sc, t))
  }

  function NpvSeries(sc: Scenario, w: real, h: real, x: Plan): seq<real>
    requires Fits(sc, x)
  {
    seq(x.periods, t requires 0 <= t < x.periods => Npv(sc, w, h, x, t))
  }

  /** Total discounted NPV of one scenario over the horizon. */
  function ScenarioNpv(sc: Scenario, w: real, h: real, x: Plan): real
    requires Fits(sc, x)
  {
    Sum(NpvSeries(sc, w, h, x))
  }

  // ---------------------------------------------------------------------------
  // Properties of the period model

  /** Net income in closed form: operating margin is sales net of the R&D and
      SG&A shares minus cost of sales (substrate cost plus depreciation), and
      tax takes its share of it. */
  lemma NetIncomeClosedForm(sc: Scenario, w: real, h: real, x: Plan, t: nat)
    requires Fits(sc, x) && t < x.periods
    ensures CostOfSales(sc, w, h, x, t) - CostOfSalesExDep(sc, w, h, x, t) == sc.depreciation[t]
    ensures NetIncome(sc, w, h, x, t)
         == (1.0 - sc.taxRate) * ((1.0 - sc.rd - sc.sga) * Sales(sc, w, h, x, t)
                                  - CostOfSalesExDep(sc, w, h, x, t) - sc.depreciation[t])
  {
    LineFormulasClosedForm(Sales(sc, w, h, x, t), CostOfSalesExDep(sc, w, h, x, t), sc.depreciation[t],
                           sc.rd, sc.sga, sc.taxRate);
  }

  lemma LineFormulasClosedForm(sales: real, cost: real, dep: real, rd: real, sga: real, tax: real)
    ensures NetIncomeOf(OperatingMarginOf(sales - (cost + dep), sales, rd, sga), tax)
         == (1.0 - tax) * ((1.0 - rd - sga) * sales - cost - dep)
  {
  }

  /** The net cash flow of a period through the line formulas, from its sales
      and its cost of sales without depreciation. */
  lemma NetCashFlowFromLines(sc: Scenario, w: real, h: real, x: Plan, t: nat)
    requires Fits(sc, x) && t < x.periods
    ensures NetCashFlow(sc, w, h, x, t)
         == NetIncomeOf(OperatingMarginOf(Sales(sc, w, h, x, t) - (CostOfSalesExDep(sc, w, h, x, t) + sc.depreciation[t]),
                                          Sales(sc, w, h, x, t), sc.rd, sc.sga), sc.taxRate)
            + sc.depreciation[t] - DeltaWorkingCapital(sc, w, h, x, t) - sc.investment[t]
  {
  }

  /** Discounting is undone by the discount factor. */
  lemma DiscountInverse(sc: Scenario, w: real, h: real, x: Plan, t: nat)
    requires Fits(sc, x) && t < x.periods
    ensures Npv(sc, w, h, x, t) * DiscountBase(sc, t) == NetCashFlow(sc, w, h, x, t)
  {
    DiscountedUndone(NetCashFlow(sc, w, h, x, t), DiscountBase(sc, t));
  }

  /** With a zero cost of capital, and in period 0 whatever it is, the NPV of a
      period is its net cash flow. */
  lemma Undiscounted(sc: Scenario, w: real, h: real, x: Plan, t: nat)
    requires Fits(sc, x) && t < x.periods
    requires t == 0 || sc.wacc == 0.0
    ensures Npv(sc, w, h, x, t) == NetCashFlow(sc, w, h, x, t)
  {
    PowOfOne(t);
    DiscountedUndone(NetCashFlow(sc, w, h, x, t), DiscountBase(sc, t));
  }

  lemma {:induction false} PowOfOne(n: nat)
    ensures Pow(1.0, n) == 1.0
  {
    if n > 0 {
      PowOfOne(n - 1);
    }
  }

  /** Discount factors grow with the period when the cost of capital is positive,
      so a later cash flow of the same size is worth less. */
  lemma {:induction false} DiscountGrows(b: real, n: nat)
    requires b > 1.0
    ensures Pow(b, n) >= 1.0
    ensures Pow(b, n + 1) > Pow(b, n)
  {
    if n > 0 {
      DiscountGrows(b, n - 1);
    }
    ScaleUp(b, Pow(b, n), Pow(b, n + 1));
  }

  /** Multiplying by more than one grows a value of at least one. */
  lemma ScaleUp(b: real, p: real, r: real)
    requires b > 1.0 && p >= 1.0 && r == b * p
    ensures r > p
  {
  }

  function DeltaSeries(sc: Scenario, w: real, h: real, x: Plan, n: nat): seq<real>
    requires Fits(sc, x) && n <= x.periods
  {
    seq(n, t requires 0 <= t < n => DeltaWorkingCapital(sc, w, h, x, t))
  }

  /** Over the first n periods the changes in working capital add up to twice
      the first level minus the last one: the period-0 change counts the first
      level in full and the later ones subtract each increase. */
  lemma {:induction false} DeltaWorkingCapitalTotal(sc: Scenario, w: real, h: real, x: Plan, n: nat)
    requires Fits(sc, x) && 1 <= n <= x.periods
    ensures Sum(DeltaSeries(sc, w, h, x, n))
         == 2.0 * WorkingCapital(sc, w, h, x, 0) - WorkingCapital(sc, w, h, x, n - 1)
  {
    if n == 1 {
      assert DeltaSeries(sc, w, h, x, 1) == [WorkingCapital(sc, w, h, x, 0)];
      SumSingleton(WorkingCapital(sc, w, h, x, 0));
    } else {
      DeltaWorkingCapitalTotal(sc, w, h, x, n - 1);
      assert DeltaSeries(sc, w, h, x, n)[..n - 1] == DeltaSeries(sc, w, h, x, n - 1);
    }
  }

  /** A product that gets no copies on the substrate contributes nothing to
      sales, whatever quantity the plan gives it: replacing that product's row
      by any other row of the same length leaves sales unchanged. */
  lemma UnproducibleProductAddsNoSales(sc: Scenario, w: real, h: real, x: Plan, p: nat, row: seq<int>, t: nat)
    requires Fits(sc, x) && p < |x.qty| && t < x.periods && |row| == x.periods
    ensures Fits(sc, x.(qty := x.qty[p := row]))
    ensures Tile(w, h, sc.sizes[p]).numProducts == 0 ==> SalesTerm(sc, w, h, x, p, t) == 0.0
    ensures Tile(w, h, sc.sizes[p]).numProducts == 0 ==>
              Sales(sc, w, h, x, t) == Sales(sc, w, h, x.(qty := x.qty[p := row]), t)
  {
    var y := x.(qty := x.qty[p := row]);
    assert Fits(sc, y);
    if Tile(w, h, sc.sizes[p]).numProducts == 0 {
      forall q | 0 <= q < |x.qty|
        ensures SalesTerms(sc, w, h, x, t)[q] == SalesTerms(sc, w, h, y, t)[q]
      {
        if q != p {
          assert x.qty[q] == y.qty[q];
        }
      }
      SumEqual(SalesTerms(sc, w, h, x, t), SalesTerms(sc, w, h, y, t));
    }
  }

  /** Too large a product, in both placements, is unproducible in the sense above. */
  lemma TooLargeProductAddsNoSales(sc: Scenario, w: real, h: real, x: Plan, p: nat, row: seq<int>, t: nat)
    requires Fits(sc, x) && p < |x.qty| && t < x.periods && |row| == x.periods
    requires w >= 0.0 && h >= 0.0 && TooLarge(w, h, sc.sizes[p])
    ensures Fits(sc, x.(qty := x.qty[p := row]))
    ensures SalesTerm(sc, w, h, x, p, t) == 0.0
    ensures Sales(sc, w, h, x, t) == Sales(sc, w, h, x.(qty := x.qty[p := row]), t)
  {
    TooLargeGivesNoUnits(w, h, sc.sizes[p]);
    UnproducibleProductAddsNoSales(sc, w, h, x, p, row, t);
  }
}
