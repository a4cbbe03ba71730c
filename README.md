# Climate loss calculations, modelled in Dafny

This project models the arithmetic core of a small loss calculator. The calculator estimates
projected financial losses for a portfolio of buildings exposed to a hazard. It has two parts:

- **Exercise 1** (`calculate_projected_losses`) walks a list of building records. For each building it
  compounds the construction cost by inflation over `years_out` years. It scales that by
  `(1 - hazard_probability) ** years_out` and discounts it at a fixed 5% a year. Each present value
  is added to a running total. A maintenance cost is computed for every building and deliberately
  left out of the total.
- **Exercise 2** (`_simple_loss`, `_complex_loss`) applies one of two formulas to every building.
  The discount rate is supplied by the caller. The *simple* formula is exercise 1's formula with that
  rate. The *complex* formula is `cost * exp(inflation * floor_area / 1000) * hazard / (1 + rate) ** years`.
  Each estimate is stored in a dictionary keyed by `buildingId`, so a later building overwrites an
  earlier one with the same identifier. The reported total is the sum of the dictionary's values.

All arithmetic is over exact `real`s. `x ** n` for a natural `n` is the recursive `Powers.Pow`.
`math.exp` is passed in as a function parameter `exp: real -> real`. Lemmas that need a property of it,
such as positivity or `exp(0) = 1`, take that property as a precondition.

Modules:

- `Powers` (`powers.dfy`) holds the power function.
- `BuildingData` (`building_data.dfy`) holds the building record and helpers about identifiers.
- `LossesCalculator` (`losses_calculator.dfy`) models exercise 1.
- `LossFormula` (`loss_formula.dfy`) models the two per-building formulas of exercise 2.
- `LossAggregation` (`loss_aggregation.dfy`) models the dictionary and the totals of exercise 2.

The docstring of the risk-adjusted step (exercise1_losses_calculator.py:40-45) says to multiply
the future cost by the hazard probability. The code at line 47, after the comment at line 46,
multiplies by `(1 - hazard_probability) ** years_out` instead. The model follows the code. So a hazard
probability of 0 leaves the discounted future cost unchanged, and a hazard probability of 1 gives 0
once `years_out >= 1`. With `years_out = 0` every power term is 1, and both exercise 1 and the simple
formula give the construction cost.

In exercise 2 the division by `(1 + standard_discount_rate) ** years_out` raises `ZeroDivisionError`
when the rate is -1 and `years_out > 0`. It raises at the first building. The line reporting how long
loading took (exercise2_loss_formula.py:79, :114) has already been printed by then. The per-building
lines and the total line are never printed.
The model returns `Err(ZeroDivisionError)` in exactly that case when the list is non-empty. An empty
list never divides, and its total is 0.

## Model

| member | source | states |
|---|---|---|
| Powers.Pow | exercise1_losses_calculator.py:37 | `x ** n` for a natural `n`: it is zero exactly when the base is zero and the exponent positive, and non-negative for a non-negative base |
| LossesCalculator.FutureCost | exercise1_losses_calculator.py:37 | the compounded cost equals the construction cost when no years are projected or inflation is zero, and is non-negative for a non-negative cost and an inflation rate of at least -100% |
| LossesCalculator.RiskAdjustedLoss | exercise1_losses_calculator.py:47 | the future cost is unchanged at zero years or zero hazard, becomes zero at hazard 1 after at least one year, and stays non-negative for hazard at most 1 |
| LossesCalculator.PresentValue | exercise1_losses_calculator.py:58-60 | the present value grows back to the risk-adjusted loss when multiplied by `1.05 ** n`, and is non-negative for a non-negative loss |
| LossesCalculator.MaintenanceCost | exercise1_losses_calculator.py:63 | maintenance at 50 per square meter is zero exactly for zero floor area, and non-negative for non-negative area |
| LossesCalculator.TotalMaintenanceCost | exercise1_losses_calculator.py:66 | the annual maintenance is discounted once by 1.05 and multiplied by the years, so it is zero for zero years |
| LossesCalculator.BuildingLoss | exercise1_losses_calculator.py:37-60 | a building's contribution is its construction cost at zero years, and zero at hazard 1 after at least one year |
| LossesCalculator.CalculateProjectedLosses | exercise1_losses_calculator.py:22-81 | the loop's total is the sum of every building's present value loss, duplicates included, with maintenance excluded; an empty list gives 0 |
| LossesCalculator.PortfolioLossPermutation | exercise1_losses_calculator.py:24-79 | reordering the buildings (any permutation) leaves the total unchanged |
| LossesCalculator.PortfolioLossYearsZero | exercise1_losses_calculator.py:37-60 | with `years_out = 0` the total is the sum of the construction costs |
| LossesCalculator.PortfolioLossFullHazard | exercise1_losses_calculator.py:47 | inserting a building with hazard probability 1 anywhere leaves the total unchanged once at least one year is projected |
| LossesCalculator.PortfolioLossIgnoresFloorArea | exercise1_losses_calculator.py:63-79 | two lists that differ only in floor areas have the same total, because maintenance cost is not added |
| LossesCalculator.PortfolioLossNonnegative | exercise1_losses_calculator.py:37-60 | if every building has a non-negative cost, an inflation rate of at least -100% and a hazard probability in [0, 1], the total is non-negative |
| LossFormula.DiscountFactor | exercise2_loss_formula.py:86 | `(1 + rate) ** n` is zero exactly when the rate is -1 and at least one year is projected, and positive for a rate above -1 |
| LossFormula.Exponent | exercise2_loss_formula.py:119 | the exponent `inflation * floor_area / 1000` is zero when either factor is zero |
| LossFormula.SimpleLoss | exercise2_loss_formula.py:84-86 | the simple loss is the construction cost at zero years; it is zero at hazard 1 after at least one year; at hazard 0 it is the future cost discounted |
| LossFormula.ComplexLoss | exercise2_loss_formula.py:119 | the complex loss is zero at hazard 0 or cost 0; at zero years it is `cost * exp(exponent) * hazard` |
| LossFormula.SimpleMatchesPortfolio | exercise2_loss_formula.py:84-86 | at discount rate 0.05 the simple loss equals exercise 1's present value loss for the same building and years |
| LossFormula.SimpleLossNonnegative | exercise2_loss_formula.py:84-86 | attributes in range and a discount rate above -1 give a non-negative simple loss |
| LossFormula.ComplexLossFullHazard | exercise2_loss_formula.py:119 | at hazard 1 the complex loss times the discount factor is `cost * exp(exponent)` |
| LossFormula.ComplexLossLinearInHazard | exercise2_loss_formula.py:119 | the complex loss is linear in the hazard probability |
| LossFormula.ComplexLossLinearInCost | exercise2_loss_formula.py:119 | the complex loss is linear in the construction cost |
| LossFormula.ComplexLossZeroExponent | exercise2_loss_formula.py:119 | if `exp(0) = 1` and inflation or floor area is zero, the complex loss times the discount factor is `cost * hazard` |
| LossFormula.ComplexLossNonnegative | exercise2_loss_formula.py:119 | a non-negative cost and hazard, a positive `exp` value and a rate above -1 give a non-negative complex loss |
| LossAggregation.EstimateLosses | exercise2_loss_formula.py:81-91 | the estimate loop fails exactly for a non-empty list with rate -1 and years > 0; otherwise the dictionary's keys are exactly the input's identifiers, and each holds the estimate of that identifier's last occurrence |
| LossAggregation.TotalLoss | exercise2_loss_formula.py:93-100 | the accumulated total is the sum of the dictionary's values, whatever order the keys are visited in |
| LossAggregation.SimpleLossTotal | exercise2_loss_formula.py:72-104 | the simple pipeline fails only on the zero-divisor input; otherwise its total counts each identifier once, at its last occurrence; with distinct identifiers it is the sum over the input list |
| LossAggregation.ComplexLossTotal | exercise2_loss_formula.py:107-137 | the complex pipeline has the same error case, the same last-write-wins dictionary and the same once-per-identifier total |
| LossAggregation.TabulateKeys | exercise2_loss_formula.py:81-91 | the dictionary's key set equals the set of identifiers in the input |
| LossAggregation.TabulateLastWins | exercise2_loss_formula.py:88-91 | for each identifier, the stored estimate is the one computed for its last occurrence in the list |
| LossAggregation.TabulateTotal | exercise2_loss_formula.py:93-100 | the sum of the dictionary's values equals the total in which a building counts only if no later building has its identifier |
| LossAggregation.DistinctTotal | exercise2_loss_formula.py:93-100 | with pairwise distinct identifiers, that total equals the plain sum over the input list |
| LossAggregation.EarlierDuplicateIgnored | exercise2_loss_formula.py:88-100 | putting in front of the list a building whose identifier occurs again later leaves the sum of the dictionary's values unchanged |
| LossAggregation.SimpleTotalMatchesPortfolio | exercise2_loss_formula.py:84-100 | at rate 0.05, the simple formula summed over the input list equals exercise 1's portfolio total |

## Left out

- Loading JSON (`load_data`, `load_building_data`) and opening files. The input is an already-parsed `seq<Building>`.
- Command-line parsing (`argparse`, the sub-command dispatch) and exercise 1's `main`, with its fixed `data.json` path and `years_out = 10`.
- Timing and output: `time.perf_counter`, the `runtime_seconds` field, every `print` and the `:.2f` formatting. Because printing is left out, the order of the dictionary's keys is not modelled; the total is shown not to depend on it.
- `_simple_loss` and `_complex_loss` return nothing and print the total (exercise2_loss_formula.py:102, :135). `SimpleLossTotal` and `ComplexLossTotal` return that total, or the error, as a `Result<real>` instead.
- IEEE-754 floating point. The model uses exact reals, so it leaves out three effects:
  - rounding and summation-order jitter;
  - a float `x ** n` that overflows raises `OverflowError` (exercise1_losses_calculator.py:37, 47, 60; exercise2_loss_formula.py:84-86, 119);
  - a discount power that underflows to `0.0` (for example rate -0.9 over 400 years) makes lines 86 and 119 raise `ZeroDivisionError`. The model's error case covers only a rate of exactly -1.
- `math.exp` has no exact counterpart, so it is a parameter. Its `OverflowError` on large arguments is not modelled.
- Negative `years_out`. Python accepts it and computes reciprocal powers; `0.0 ** -n` then raises `ZeroDivisionError`, for a hazard probability of 1 or a rate of -1. The model takes `years_out` as a natural number.
- Malformed records. A missing field raises `KeyError` at its first lookup. A field of the wrong type, such as a string cost, raises `TypeError` in the arithmetic (exercise1_losses_calculator.py:37). Records are well typed by construction.
