# Mahr estimation engine in Dafny

This project models the estimation engine of a mahr (marriage gift) calculator
and proves its properties. The engine is `calculateMahr`. It takes the groom's
financial profile (monthly income, savings, debt, city tier) and the bride's
preferences (expected range, preference, payment mode). It returns three
rounded estimates (conservative, fair, generous), an audit breakdown of every
intermediate value, and a split of the fair estimate into a prompt part and a
deferred part.

The engine is a pure, straight-line computation, so the model is made of
functions and lemmas:

- `types.dfy` (module `Types`) holds the profiles, the result, the breakdown
  record and the closed enumerations (city tier, preference, payment mode, job
  stability).
- `mahr_logic.dfy` (module `MahrLogic`) holds the engine, built from one function
  per step. `PreferenceFactor`, `CityMultiplier`, `SavingsBonus`, `DebtPenalty`
  and `FinancialAdjustment` compute the three multipliers. `ComputeBreakdown`
  produces the audit record from them. `MathRound` rounds the three tiers.
  `PaymentSplit` splits the fair tier. `CalculateMahr` runs these steps in the
  engine's order.
- `mahr_properties.dfy` (module `MahrProperties`) holds the general properties:
  - how rounding behaves;
  - the constant tables;
  - bracket exclusivity and the bounds of the adjustment;
  - consistency of the breakdown;
  - the order of the tiers and the exact payment split;
  - the fields the engine never reads;
  - how the estimate moves with each input, including the income cliff where
    it does not.
- `mahr_scenarios.dfy` (module `MahrScenarios`) holds three worked examples,
  each proved down to the last field of the result.

Amounts are exact `real`s. `Math.round` is `Floor(x + 0.5)`: to the nearest
integer, with halves going up, as in JavaScript.

Two behaviours of the code that a reader might not expect:

- One might expect conservative = round(0.8 × fair) and generous =
  round(1.3 × fair). The code instead rounds 0.8 × and 1.3 × the unrounded
  estimate (services/mahrLogic.ts:58-60). `ConservativeNotFromFair` gives an
  input where the two differ: an estimate of 0.6 has fair 1 and conservative
  0, while round(0.8 × 1) = 1. `TiersNearMultiplesOfFair` bounds how far
  apart the two can be.
- One might expect every intermediate value to be 0 when income, savings,
  debt and expectations are all 0. But zero savings and zero debt are both at
  least "6 × 0" (services/mahrLogic.ts:29, 36). So the top bonus and the top
  penalty both apply, and the recorded `financialAdjustment` is −0.05.
  `ZeroIncome` states this for the breakdown. `AllZeroProfile` states that
  the three tiers and both payment amounts are still 0.

## Model

| member | source | states |
|---|---|---|
| `MahrLogic.MathRound` | services/mahrLogic.ts:58-60 | the rounded value lies in (x − 0.5, x + 0.5] |
| `MahrLogic.Max` | services/mahrLogic.ts:55 | the result is one of the two arguments and at least both |
| `MahrLogic.PreferenceFactor` | services/mahrLogic.ts:9-11 | the factor lies in [0.5, 3.0] and is 1.5 exactly for balanced |
| `MahrLogic.CityMultiplier` | services/mahrLogic.ts:17-22 | the multiplier lies in [0.8, 1.4] and is 1.0 exactly for tier 2 |
| `MahrLogic.SavingsBonus` | services/mahrLogic.ts:28-33 | +0.20 iff savings ≥ 6×income; +0.10 iff below that and ≥ 3×income; 0 iff below both: the highest threshold wins and exactly one bracket applies |
| `MahrLogic.DebtPenalty` | services/mahrLogic.ts:35-40 | −0.25 iff debt ≥ 6×income; −0.10 iff below that and ≥ 3×income; 0 iff below both |
| `MahrLogic.FinancialAdjustment` | services/mahrLogic.ts:26-40 | the adjustment is the savings bracket plus the debt bracket and lies in [−0.25, 0.20] |
| `MahrLogic.PaymentSplit` | services/mahrLogic.ts:62-75 | prompt and deferred add up to fair in every mode; prompt mode pays (fair, 0); deferred mode pays (0, fair) |
| `MahrLogic.ComputeBreakdown` | services/mahrLogic.ts:13-55 | the final value is never negative; it is either 0 or the 70/30 blend of the formula's value and the average expectation |
| `MahrLogic.CalculateMahr` | services/mahrLogic.ts:7-94 | the final value is non-negative; 0 ≤ conservative ≤ fair ≤ generous; prompt + deferred = fair |
| `MahrProperties.MathRoundIsNearest` | services/mahrLogic.ts:59 | no integer is closer to x than the rounded value |
| `MahrProperties.MathRoundIsUnique` | services/mahrLogic.ts:59 | round(x) = n iff n − 0.5 ≤ x < n + 0.5 |
| `MahrProperties.MathRoundIntegersAndTies` | services/mahrLogic.ts:59 | integers are unchanged; n + 0.5 rounds up to n + 1; n − 0.5 rounds up to n |
| `MahrProperties.MathRoundMonotone` | services/mahrLogic.ts:58-60 | rounding preserves ≤ |
| `MahrProperties.PreferenceFactorTable` | services/mahrLogic.ts:9-11 | sunnah 0.5, balanced 1.5, generous 3.0, strictly increasing |
| `MahrProperties.CityMultiplierTable` | services/mahrLogic.ts:17-21 | tier 1 1.4, tier 2 1.0, tier 3 0.8, strictly increasing with cost of living |
| `MahrProperties.AdjustmentBrackets` | services/mahrLogic.ts:26-40 | each category contributes one of its three values; with savings and debt both at 6×income the adjustment is −0.05 |
| `MahrProperties.FinancialAdjustmentMonotone` | services/mahrLogic.ts:28-40 | for any income, more savings or less debt never lowers the adjustment |
| `MahrProperties.BreakdownFormulas` | services/mahrLogic.ts:43-55 | the breakdown records income, factor, city multiplier and adjustment; base = income × factor; the formula's value = base × city × (1 + adjustment); average = (min + max)/2; final = max(0.7·formula + 0.3·average, 0) |
| `MahrProperties.BreakdownConsistent` | services/mahrLogic.ts:77-90 | every field of the returned breakdown rebuilt from the profiles, and the three tiers from its final value |
| `MahrProperties.AlignedBetweenFormulaAndExpectation` | services/mahrLogic.ts:47-55 | the estimate is never below the smaller of the formula's value and the average expectation, and never above the larger of them (or 0, when both are negative) |
| `MahrProperties.TiersNearMultiplesOfFair` | services/mahrLogic.ts:58-60 | conservative is within 0.9 of 0.8 × fair, and generous within 1.15 of 1.3 × fair |
| `MahrProperties.ExpectationOnlyEstimate` | services/mahrLogic.ts:48-55 | with no income and expectations 1 and 3 the blended estimate is 0.6 |
| `MahrProperties.RoundingNearSixTenths` | services/mahrLogic.ts:58-59 | 0.6 rounds to 1, 0.6 × 0.8 rounds to 0, and 0.8 × 1 rounds to 1 |
| `MahrProperties.ConservativeNotFromFair` | services/mahrLogic.ts:58-59 | a concrete profile where conservative (0) differs from round(0.8 × fair) (1) |
| `MahrProperties.SplitWithinFair` | services/mahrLogic.ts:72-74 | in split mode with fair ≥ 0 and a share in [0, 100], both parts lie in [0, fair] |
| `MahrProperties.SplitExtremes` | services/mahrLogic.ts:66-74 | a 100% split pays like prompt mode and a 0% split like deferred mode |
| `MahrProperties.ResultPayment` | services/mahrLogic.ts:62-75 | the result's two amounts in each of the three modes, and for a share in [0, 100] both lie in [0, fair] |
| `MahrProperties.DependsOnlyOnReadFields` | services/mahrLogic.ts:7-94 | two inputs that agree on income, savings, debt, tier, expectations, preference and mode (and on the share, in split mode) give equal results |
| `MahrProperties.IgnoresUnreadFields` | services/mahrLogic.ts:7-94 | monthly expenses, job stability and currency never change the result; the share changes it only in split mode |
| `MahrProperties.ZeroIncome` | services/mahrLogic.ts:29-43 | with zero income and non-negative savings and debt, both top brackets apply (adjustment −0.05), base and formula's value are 0, and the estimate is 0.3 × the average expectation floored at 0 |
| `MahrProperties.AllZeroProfile` | services/mahrLogic.ts:7-94 | with income, savings, debt and both expectations 0, the estimate, all three tiers and both payment amounts are 0, in every city, preference and mode |
| `MahrProperties.NothingToSplit` | services/mahrLogic.ts:62-75 | a fair tier of 0 pays (0, 0) in every mode and at any share |
| `MahrProperties.FormulaValue` | services/mahrLogic.ts:43-45 | the formula's value is income × factor × city × (1 + adjustment) |
| `MahrProperties.AdjustedMonotone` | services/mahrLogic.ts:13-45 | for income ≥ 0, larger non-negative factor and city multiplier and a larger adjustment (≥ −1) never lower the formula's value |
| `MahrProperties.AlignedFollowsBlend` | services/mahrLogic.ts:52-55 | the floored blend never decreases when the formula's value and the average expectation do not |
| `MahrProperties.BreakdownMonotone` | services/mahrLogic.ts:13-55 | for income ≥ 0, larger non-negative factor and city multiplier, a larger adjustment (≥ −1) and a larger expectation sum never lower the final value |
| `MahrProperties.EstimateMonotone` | services/mahrLogic.ts:7-60 | the same for the whole result: final value and all three tiers are no lower |
| `MahrProperties.PreferenceRaisesEstimate` | services/mahrLogic.ts:9-11 | sunnah ≤ balanced ≤ generous in every figure |
| `MahrProperties.CityRaisesEstimate` | services/mahrLogic.ts:17-23 | tier 3 ≤ tier 2 ≤ tier 1 in every figure |
| `MahrProperties.SavingsRaiseEstimate` | services/mahrLogic.ts:28-33 | more savings never lower any figure |
| `MahrProperties.DebtLowersEstimate` | services/mahrLogic.ts:35-40 | more debt never raises any figure |
| `MahrProperties.ExpectationRaisesEstimate` | services/mahrLogic.ts:48-52 | a larger expectation sum never lowers any figure |
| `MahrProperties.IncomeCliff` | services/mahrLogic.ts:28-33 | income 1001 gives a lower fair tier than income 1000 with the same savings of 6000, because the savings bracket drops from 20% to 10% |
| `MahrScenarios.TiersOf` | services/mahrLogic.ts:58-60 | the three tiers of an estimate, given the interval each multiple falls in |
| `MahrScenarios.BalancedBreakdown` | services/mahrLogic.ts:9-55 | income 5000, balanced, tier 2, no brackets: base 7500, formula 7500, average 6000, estimate 7050 |
| `MahrScenarios.BalancedTiers` | services/mahrLogic.ts:58-60 | 7050 gives tiers 5640, 7050, 9165 |
| `MahrScenarios.BalancedScenario` | services/mahrLogic.ts:7-94 | the complete result for the balanced profile: tiers 5640/7050/9165, prompt 7050, deferred 0 |
| `MahrScenarios.SunnahBreakdown` | services/mahrLogic.ts:9-55 | the same with sunnah: base 2500, estimate 3550 |
| `MahrScenarios.SunnahTiers` | services/mahrLogic.ts:58-60 | 3550 gives tiers 2840, 3550, 4615 |
| `MahrScenarios.SunnahScenario` | services/mahrLogic.ts:7-94 | the complete result for the sunnah profile: tiers 2840/3550/4615, prompt 3550, deferred 0 |
| `MahrScenarios.GenerousBreakdown` | services/mahrLogic.ts:9-55 | income 5000, savings 35000, generous, tier 1: base 15000, adjustment +0.20, formula 25200, estimate 17640 |
| `MahrScenarios.GenerousTiers` | services/mahrLogic.ts:58-73 | 17640 gives tiers 14112, 17640, 22932, and 40% of it rounds to 7056 |
| `MahrScenarios.GenerousSplitScenario` | services/mahrLogic.ts:7-94 | the complete result for the generous profile in a 40% split: prompt 7056, deferred 10584 |

## Left out

- `formatCurrency` (services/mahrLogic.ts:96-102) only wraps the platform's locale formatter, which is not part of this model.
- The advisory-text client (`services/geminiService.ts`) is not part of this model. It makes a network call to a language model and falls back to fixed text.
- The React user interface (`App.tsx`, `components/`) and the label tables in `constants.ts` are not part of this model. They are presentation only.
- IEEE-754 double rounding of the products and sums is not modelled. Amounts are exact reals, so, for example, 0.20 − 0.25 is exactly −0.05 here.
- Unrecognised payment-mode strings are not modelled. The code leaves both amounts at 0 for them. The modes here are a closed enumeration of the three recognised values.
- Unrecognised city-tier strings are not modelled. For them the multiplier lookup (services/mahrLogic.ts:22) yields no number and every figure becomes NaN. The tiers here are a closed enumeration.
- Unrecognised preference strings are not modelled either. The code falls back to the balanced factor 1.5 for them. The preferences here are a closed enumeration, and the fallback shows up only as the final `else` of `PreferenceFactor`.
- Input fields that are missing, or not numbers, are not modelled. The profiles here always hold real numbers.
- `BreakdownMonotone` and the lemmas built on it are stated for a non-negative income only. For a negative income the estimate moves the other way in the factor and the city multiplier.
