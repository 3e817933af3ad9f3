# Expected-NPV evaluation of a substrate size (sample average approximation)

This project models the part of the production-planning tool that evaluates one candidate
substrate size. A substrate is the glass sheet that displays are cut from.

Given sampled scenarios of prices, yields, costs and financial rates, it computes four things:

1. How many copies of each product fit on the substrate, rotating the product when that gives more.
2. A period-by-period profit-and-loss and cash-flow model of every scenario, for a given production plan.
3. The plan's expected net present value (the scenario average of discounted NPV), the number of
   scenarios with a negative total, and an averaged profit-and-loss statement.
4. The straight-line depreciation schedule that the scenario data carries.

The plan is an input: in the real system it is what the external MILP solver returns. Here it is any
integer plan. Feasibility and the objective are functions of that plan.

Modules:

- `Sums` (`sums.dfy`): finite sums, and averages written as `(1/n) * total`. It also proves that a
  rectangular table summed by rows or by columns gives the same total.
- `Tiling` (`tiling.dfy`): the products-per-substrate choice. This is pure.
- `Finance` (`finance.dfy`): the scenario's period model as functions of the plan:
  - sales, cost of sales with and without depreciation;
  - gross margin, operating margin, net income;
  - cash conversion cycle, working capital and its change;
  - net cash flow and discounted NPV.
- `Saa` (`saa.dfy`), with the source's loops as methods:
  - the products-per-substrate table and the per-scenario period tables, filled by nested loops;
  - the capacity check;
  - the objective, the negative-scenario counter and the profit-and-loss builder;
  - `NpvSaa`, which puts the report together.
- `Depreciation` (`depreciation.dfy`): the double loop that builds the year-keyed depreciation table
  with insert-or-add.
  - The insertion-ordered dictionary is a key sequence plus a map.
  - `Fold` over the sequence of (year, share) steps is its reference definition.
  - What the table adds up to is proved about that definition.

Conventions, where the model makes the source's behaviour explicit:

- Real numbers are exact rationals. The source computes in binary floating point.
- Prices and yields are per-period series indexed from period 0. The source reaches them through
  fixed column offsets (`t+2` for prices, `t+4` for yields). The horizon is scenario 0's number of
  price periods.
- Yield is indexed by product. The source merges the per-market yield table onto the product rows
  and reads row `p`. So the value is the yield of product `p`'s market, already joined.
- The profit-and-loss `Depreciation` entry is the value of the last scenario. The source reads it
  through the scenario loop variable left over from the loop. It is not an average.
- Working capital and net cash flow follow the definitions as written:
  - `WC = Sales * CCC`, with `CCC = (DIO + DSO - DPO) / 365`;
  - `DWC[0] = WC[0]`, and `DWC[t] = WC[t-1] - WC[t]` after that;
  - `NCF = NI + Dep - DWC - Investment`.

  In the source, the two lines that build WC and NCF use solver variables. Only later are their
  dictionary entries overwritten (`NPVFunction.py:94-105`). What the solver is handed differs from
  the written definitions: see "## Findings".
- With no scenarios the source fails when it reads scenario 0. `NpvSaa` returns `NoScenarios`
  instead. With an empty horizon it fails when it sets the period-0 working-capital change, and
  `NpvSaa` returns `NoPeriods`.

The R&D and SG&A shares are taken from sales, not from the margin. Factoring `(1 - RD - SGA)` out
of the whole margin would give `(1-tax) * (sales - cost) * (1 - RD - SGA)`. The code instead
subtracts `Sales * (RD + SGA)` from the gross margin and then applies tax, so
`NI = (1-tax) * ((1 - RD - SGA) * Sales - cost)`.

Take one product at price 100, yield 0.9, four copies per substrate, substrate cost 10 per m² on
2 m², tax 25%, R&D 5% and SG&A 3%. The first formula gives 234.6 per substrate. The code gives
233.4, and 23340 at the capacity of 100 substrates. `Saa.ToyOptimum` proves the code's figure.

## Model

| member | source | states |
|---|---|---|
| Tiling.Tile | NPVFunction.py:28-49 | Two guarantees. (1) The count is columns times rows of the chosen placement; it is at least the native count and at least the rotated count, and equals one of them. (2) The placement is horizontal exactly when the native count is at least the rotated one, so a tie goes to horizontal. Columns and rows are that placement's floors. |
| Tiling.TileNonNegative | NPVFunction.py:29-36 | On a substrate of non-negative size, columns, rows and units are all non-negative. |
| Tiling.TooLargeGivesNoUnits | NPVFunction.py:29-36 | A product that is longer than the substrate in both placements gets zero copies. |
| Tiling.SmallSubstrateHoldsNothing | NPVFunction.py:29-49 | A 0.5 m by 0.5 m substrate holds no 1 m by 1 m product. |
| Tiling.TileSwapSides | NPVFunction.py:29-36 | Exchanging the substrate's width and height leaves the unit count unchanged. |
| Tiling.TileMonotone | NPVFunction.py:29-36 | A substrate at least as large on both sides never holds fewer copies. |
| Finance.Sales | NPVFunction.py:77-80 | Sales of a period: the sum over products of price times yield times copies per substrate times substrates planned. |
| Finance.CostOfSalesExDep | NPVFunction.py:87-89 | Cost of sales without depreciation: the sum over products of the period's substrate cost per m² times the substrate area `w*h` times substrates planned. |
| Finance.CostOfSales | NPVFunction.py:82-84 | Cost of sales: the same substrate cost plus the period's depreciation. |
| Finance.GrossMargin | NPVFunction.py:91 | Gross margin: sales less cost of sales. |
| Finance.OperatingMargin | NPVFunction.py:92 | Operating margin: gross margin less the R&D and SG&A shares of sales. |
| Finance.NetIncome | NPVFunction.py:93 | Net income: operating margin times one minus the tax rate. |
| Finance.CashConversionCycle | NPVFunction.py:100 | Cash conversion cycle in years: inventory days plus receivable days less payable days, over 365. |
| Finance.WorkingCapital | NPVFunction.py:94 | Working capital: the period's sales times the cash conversion cycle. |
| Finance.DeltaWorkingCapital | NPVFunction.py:102-105 | Change in working capital: the level itself in period 0, then the previous level minus the current one. |
| Finance.NetCashFlow | NPVFunction.py:95-96 | Net cash flow: net income plus depreciation, minus the working-capital change, minus the period's investment. |
| Finance.Npv | NPVFunction.py:97 | Discounted NPV: the net cash flow over `(1+WACC)^t`, with the zero-based period as exponent. |
| Finance.ScenarioNpv | NPVFunction.py:101 | A scenario's total NPV: its discounted NPV summed over the horizon. |
| Finance.LinesNonNegative | NPVFunction.py:77-89 | With no negative price, yield, substrate cost or depreciation, a non-negative plan on a substrate of non-negative size gives non-negative sales and costs of sales. |
| Finance.Pow | NPVFunction.py:97 | The discount factor `(1+WACC)^t` is non-zero when its base is, and positive when its base is. |
| Finance.NetIncomeClosedForm | NPVFunction.py:82-93 | Cost of sales exceeds cost of sales without depreciation by exactly the period's depreciation. Net income equals `(1-tax)` times `((1 - RD - SGA) * Sales - COS2 - Dep)`. |
| Finance.DiscountInverse | NPVFunction.py:97 | A period's NPV times its discount factor is its net cash flow. |
| Finance.Undiscounted | NPVFunction.py:97 | In period 0 (zero-based exponent), or with a zero WACC, NPV equals net cash flow. |
| Finance.DiscountGrows | NPVFunction.py:97 | With a positive WACC the discount factors are at least 1 and strictly increase with the period. |
| Finance.DeltaWorkingCapitalTotal | NPVFunction.py:102-105 | Over the first n periods, the working-capital changes add up to twice the first level minus the last level. |
| Finance.UnproducibleProductAddsNoSales | NPVFunction.py:77-80 | A product with zero copies per substrate contributes nothing to sales. Replacing that product's quantities in a plan by any others leaves sales unchanged. |
| Finance.TooLargeProductAddsNoSales | NPVFunction.py:77-80 | A product too large for the substrate in both placements adds no sales, whatever quantity the plan gives it. |
| Saa.BuildPoS | NPVFunction.py:20-49 | The nested loops fill one entry per scenario and product (scenario 0's product count). Each entry is the tiling choice for that scenario's product size. |
| Saa.PeriodSales | NPVFunction.py:77-80 | The loop over products, reading copies per substrate from the scenario's row of the products-per-substrate table, ends at the period's sales. |
| Saa.BuildPeriodTables | NPVFunction.py:75-105 | For every scenario and every period within the horizon, the tables hold exactly the period model's sales, costs, margins, net income, working capital, working-capital change, net cash flow and NPV. Sales read their units from the products-per-substrate table. |
| Saa.Feasible | NPVFunction.py:55-89 | A plan is feasible when four things hold: (1) every quantity is non-negative (the plan variables' lower bound); (2) every period's total is at most scenario 0's monthly capacity times 12; (3) sales are non-negative in every scenario and period; (4) both costs of sales are non-negative in every scenario and period. The last two come from the default lower bound 0 of the solver variables that the sales and cost equations define. |
| Saa.BoundsFollowFromData | NPVFunction.py:59-89 | On data with no negative price, yield, substrate cost or depreciation, a non-negative plan meets the sales and cost bounds. Feasibility is then non-negativity and capacity alone. |
| Saa.CapacityRespected | NPVFunction.py:71-73 | The result is true exactly when every period's total substrates are at most scenario 0's monthly capacity times 12. |
| Saa.FeasibleEntryBounds | NPVFunction.py:71-73 | In a feasible plan, every quantity lies between 0 and the yearly capacity. |
| Saa.Objective | NPVFunction.py:108 | The objective: one over the number of scenarios, times the sum over periods of the sum over scenarios of discounted NPV. |
| Saa.Totals | NPVFunction.py:101 | One total per scenario, equal to the sum over periods of that scenario's discounted NPV. |
| Sums.SumInterchange | NPVFunction.py:108 | A rectangular table summed row by row gives the same total as summed column by column. |
| Saa.TotalsAddUpToPeriodSums | NPVFunction.py:108 | Summing the scenario totals gives the same result as summing the periods' scenario sums. |
| Saa.ObjectiveIsMeanOfTotals | NPVFunction.py:101-108 | The objective `(1/S)` times the double sum over periods and scenarios equals the mean of the scenario totals. |
| Saa.CountNegativeScenarios | NPVFunction.py:115-118 | The counter ends at the number of scenarios whose total is strictly negative. It is at most the number of scenarios, and it is zero exactly when no total is negative. |
| Saa.NoNegativeSet | NPVFunction.py:115-118 | No scenario is counted exactly when every total is non-negative. |
| Saa.AllNegativeCounted | NPVFunction.py:115-118 | When every total is negative, every scenario is counted. |
| Saa.IdenticalScenarios | NPVFunction.py:101-118 | With identical scenarios, the objective is that scenario's total NPV. The count is 0 when that total is non-negative, and the number of scenarios when it is negative. |
| Saa.PLAt | NPVFunction.py:121-131 | One period's statement: the scenario average of sales, cost without depreciation, gross margin, R&D, SG&A, operating margin, tax rate and net income, plus the last scenario's depreciation. |
| Saa.BuildPL | NPVFunction.py:121-131 | Each period's entry averages sales, cost without depreciation, gross margin, R&D, SG&A, operating margin, tax and net income over the scenarios. The depreciation entry is the last scenario's value. |
| Saa.PLGrossMarginIdentity | NPVFunction.py:123-125 | The averaged gross margin equals averaged sales minus averaged cost without depreciation minus averaged depreciation. |
| Saa.PLIdenticalScenarios | NPVFunction.py:121-131 | With identical scenarios, every statement line is that scenario's own value. The last-scenario depreciation then equals the average. |
| Saa.NpvSaa | NPVFunction.py:13-137 | Without scenarios the result is `NoScenarios`, and with an empty horizon it is `NoPeriods`. Otherwise the report holds four things: (1) the objective, which equals the mean of the scenario totals; (2) the width and height; (3) the negative count, at most S; (4) the profit-and-loss series. |
| Saa.ToyObjective | NPVFunction.py:75-108 | One scenario, one period, one product (price 100, yield 0.9, four copies, substrate cost 10 per m² on 2 m², tax 25%, R&D 5%, SG&A 3%): q substrates give an objective of 233.4 q. |
| Saa.ToyOptimum | NPVFunction.py:71-108 | On that instance, 100 substrates are feasible and earn 23340, and no feasible plan earns more. |
| Finance.SolvedCashFlowDiffers | NPVFunction.py:95-96 | The cash flow the solver is handed exceeds the written one by the working-capital change, so the two differ exactly when that change is not zero. |
| Finance.SolvedCashFlowDiffersAtStart | NPVFunction.py:94-102 | They differ in period 0 whenever there are sales and the cash conversion cycle is not zero. |
| Finance.SolvedNetCashFlow | NPVFunction.py:95-96 | The cash flow the solver is handed: net income plus depreciation minus investment. The working-capital variable it uses is driven to 0 at the optimum. |
| Finance.NetCashFlowTotal | NPVFunction.py:94-105 | Over the first n periods, the written cash flows add up to the solved ones less `2*WC[0] - WC[n-1]`. |
| Saa.ToyWorkingCapitalDropped | NPVFunction.py:94-105 | On the instance with 36.5 days of sales outstanding and one substrate, the written cash flow is 197.4 but the solver is handed 233.4. |
| Depreciation.Credit | DataFunction.py:91-94 | Insert-or-add: add the share to the year's value, or insert the year with the share, appending it to the key order. |
| Depreciation.Share | DataFunction.py:88 | A column's yearly share: its outlay over the number of depreciation years, and 0 when that number is not positive. The share is then never used. |
| Depreciation.Positional | DataFunction.py:96 | The table read by position, as `NPVFunction.py:84` reads it: entry t is the value of the t-th key inserted. |
| Depreciation.Schedule | DataFunction.py:84-94 | The schedule: the insert-or-add steps of every column's years, from an empty table, column by column and year by year. |
| Depreciation.BuildDepreciation | DataFunction.py:84-96 | The double loop's key order and values are exactly the reference fold of insert-or-add steps, taken column by column and year by year. |
| Depreciation.CreditFrame | DataFunction.py:91-94 | One step changes only its own year. That year's value becomes the old value (or 0) plus the share. A new year is appended to the key order, and every other year keeps its presence and value. |
| Depreciation.ColumnAmount | DataFunction.py:88-89 | With at least one depreciation year, a column's shares add up to its outlay. |
| Depreciation.ScheduleKeys | DataFunction.py:87-94 | The table's keys are distinct. A year has an entry exactly when some column's window `label <= y < label + D` contains it. |
| Depreciation.ScheduleValue | DataFunction.py:87-94 | Every year's value is the sum of `amount/D` over the columns whose window contains it. |
| Depreciation.ScheduleConserves | DataFunction.py:88-94 | With D at least 1, the table's values add up to the total investment. |
| Depreciation.ScheduleOrder | DataFunction.py:90-96 | Keys are in the order in which their year first occurs among the visited years. |
| Depreciation.SchedulePositional | NPVFunction.py:84 | Read by position, as the cost-of-sales line reads it, entry t is the depreciation due in the t-th distinct year inserted. |
| Depreciation.ScheduleExample | DataFunction.py:84-96 | With 30 invested in 2020, 60 in 2021, and three years: 2021 gets 30, 2023 gets 20, and 2024 has no entry. |

## Left out

- The solver is not modelled: building the Gurobi model, its variables, setting the objective, `optimize`, and reading `.X` and `.getValue()`. The plan is an input, and the model states feasibility and the objective for it, not optimality.
- Optimality is proved only on the one-product instance (`Saa.ToyOptimum`).
- The solver variables used at the WC and NCF lines (`NPVFunction.py:94-95`) are not modelled in the report. `Saa.Objective` and `Saa.NpvSaa` subtract the written working-capital change. The program's average NPV, scenario totals and negative count contain no working-capital term: the solver sets the unconstrained change variable to 0. See "## Findings".
- Saa.NpvSaa: the source raises an error on an empty horizon; the model answers `NoPeriods`. `Finance.Fits` also excludes a WACC of -100%. The source divides by `0.0**t` there, which is 1 in period 0 and fails only from period 1 on.
- `Saa.Feasible` holds the plan's lower bound (`lb=0`), the capacity constraint, and the default lower bounds on the sales and cost-of-sales variables. `Saa.CapacityRespected` checks only the capacity constraint, the one constraint the source adds explicitly.
- Random scenario sampling, the spreadsheet ingestion and the screen-size trigonometry in `DataFunction.py` are not modelled: they are randomness, I/O and floating point. Product sizes are given positive reals.
- Finance.Fits: it requires every price and yield row, and the substrate-cost, investment and depreciation series, to cover the whole horizon. The source raises an index error when one is shorter, and that can happen. The investment table drops columns with missing values, and the depreciation table has only the years the investment windows cover. Neither length is tied to the horizon. The model does not represent that error.
- Floating-point rounding is not modelled, so floors near integer boundaries are exact here.
- Building a one-row data frame from the depreciation dictionary (`DataFunction.py:96`) is not modelled. The table is kept as its keys in order plus its values, and `Depreciation.Positional` is the positional read.
- Depreciation.BuildDepreciation: with zero depreciation years the source divides by zero, and with a negative number it divides by that. Either way the inner loop is empty, so the share is never used. The model's share is then 0.0, and the table stays empty, as in the source.
- The policy options that callers pass, the drivers, the plots and the sensitivity analysis are not modelled. They are outside the expected-NPV evaluation: `MAIN.py`, `plots.py`, `sensitivity_analysis.py`, and `MILP solver PBAS.py`. That script is a separate formulation. It draws ten random scenarios through the data generator and makes the substrate's width and height decision variables of one MILP.
- Tiling.Tile: the orientation is a two-valued datatype instead of the strings `'hor'`/`'vert'`, and counts are integers instead of floors held as floats.

## Findings

| source | as written | input that shows it | evidently intended | confidence | as-written member | corrected member |
|---|---|---|---|---|---|---|
| NPVFunction.py:95 | The cash flow is built from the solver variable for the working-capital change. That variable is continuous, bounded below by 0 and in no constraint. Its objective coefficient is negative, so the solver sets it to 0 and the cash flow is `NI + Dep - Inv`. | The one-product instance with DSO 36.5 days and one substrate: sales 360, working capital 36. The written cash flow is 197.4; the solver gets 233.4. | `NCF = NI + Dep - DWC - Inv`, with `DWC` as defined at lines 102-105. | not executed | Finance.SolvedCashFlowDiffers | Finance.NetCashFlowTotal |
