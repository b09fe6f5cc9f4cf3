/**
 * The estimation engine: a single pure computation from the groom's financial
 * profile and the bride's preferences to three rounded tiers, an audit
 * breakdown and a payment split. Each step is a function of its own, and
 * `CalculateMahr` runs them in the engine's fixed order.
 */
module MahrLogic {
  import opened Types

  /**
   * The engine's rounding to whole currency units: the nearest integer, with
   * halves going up (towards +infinity), as JavaScript's `Math.round` does.
   */
  function MathRound(x: real): (r: int)
    ensures x - 0.5 < r as real <= x + 0.5
  {
    (x + 0.5).Floor
  }

  /** The larger of two amounts, as `Math.max` returns it. */
  function Max(a: real, b: real): (m: real)
    ensures m >= a && m >= b
    ensures m == a || m == b
  {
    if a >= b then a else b
  }

  /** Step 1: the multiplier chosen by the bride's preference; balanced is the default. */
  function PreferenceFactor(preference: BridePreference): (factor: real)
    ensures 0.5 <= factor <= 3.0
    ensures factor == 1.5 <==> preference == Balanced
  {
    if preference == Sunnah then 0.5
    else if preference == Generous then 3.0
    else assert preference.Balanced?; 1.5
  }

  /** Step 2: the cost-of-living multiplier of the city tier. */
  function CityMultiplier(tier: CityTier): (mult: real)
    ensures 0.8 <= mult <= 1.4
    ensures mult == 1.0 <==> tier == Tier2
  {
    match tier
    case Tier1 => 1.4
    case Tier2 => 1.0
    case Tier3 => 0.8
  }

  /**
   * Step 3, savings: a bonus of 20% at six months of income or more,
   * otherwise 10% at three months or more, otherwise nothing.
   */
  function SavingsBonus(savings: real, income: real): (bonus: real)
    ensures bonus == 0.20 <==> savings >= 6.0 * income
    ensures bonus == 0.10 <==> savings < 6.0 * income && savings >= 3.0 * income
    ensures bonus == 0.0 <==> savings < 6.0 * income && savings < 3.0 * income
  {
    if savings >= 6.0 * income then 0.20
    else if savings >= 3.0 * income then 0.10
    else 0.0
  }

  /**
   * Step 3, debt: a penalty of 25% at six months of income or more,
   * otherwise 10% at three months or more, otherwise nothing.
   */
  function DebtPenalty(debt: real, income: real): (penalty: real)
    ensures penalty == -0.25 <==> debt >= 6.0 * income
    ensures penalty == -0.10 <==> debt < 6.0 * income && debt >= 3.0 * income
    ensures penalty == 0.0 <==> debt < 6.0 * income && debt < 3.0 * income
  {
    if debt >= 6.0 * income then -0.25
    else if debt >= 3.0 * income then -0.10
    else 0.0
  }

  /**
   * Step 3, combined: the savings bonus and the debt penalty both apply, so the
   * signed adjustment stays within [-25%, +20%].
   */
  function FinancialAdjustment(savings: real, debt: real, income: real): (adjustment: real)
    ensures -0.25 <= adjustment <= 0.20
    ensures adjustment == SavingsBonus(savings, income) + DebtPenalty(debt, income)
  {
    SavingsBonus(savings, income) + DebtPenalty(debt, income)
  }

  /** The two payment amounts derived from the fair estimate. */
  datatype Payment = Payment(promptAmount: int, deferredAmount: int)

  /**
   * Step 7: how `fair` is paid. Whatever the mode, the two parts add up to
   * `fair` exactly: in split mode the deferred part is what the rounded prompt
   * part leaves over.
   */
  function PaymentSplit(fair: int, mode: MahrType, promptPercentage: real): (p: Payment)
    ensures p.promptAmount + p.deferredAmount == fair
    ensures mode == Prompt ==> p == Payment(fair, 0)
    ensures mode == Deferred ==> p == Payment(0, fair)
  {
    match mode
    case Prompt => Payment(fair, 0)
    case Deferred => Payment(0, fair)
    case Split =>
      var prompt := MathRound(fair as real * (promptPercentage / 100.0));
      Payment(prompt, fair - prompt)
  }

  /**
   * Steps 1 to 5 of the engine once the three multipliers are known, recorded
   * as the audit breakdown: the base from income and preference factor, the
   * city and financial adjustments applied to it, and the 70/30 blend with the
   * average expectation, floored at zero.
   */
  function ComputeBreakdown(income: real, factor: real, cityMult: real, financialAdjustment: real,
                            expectedMin: real, expectedMax: real): (b: Breakdown)
    ensures b.finalAligned >= 0.0
    ensures b.finalAligned == 0.0
         || b.finalAligned == b.adjustedBeforeAlignment * 0.7 + b.averageExpectation * 0.3
  {
    var initialBase := income * factor;
    var afterCity := initialBase * cityMult;
    var adjustedBeforeAlignment := afterCity * (1.0 + financialAdjustment);
    var averageExpectation := (expectedMin + expectedMax) / 2.0;
    var blended := adjustedBeforeAlignment * 0.7 + averageExpectation * 0.3;
    var alignedMahr := Max(blended, 0.0);
    Breakdown(
      income,
      factor,
      initialBase,
      cityMult,
      financialAdjustment,
      adjustedBeforeAlignment,
      averageExpectation,
      alignedMahr)
  }

  /**
   * The engine: the audit breakdown, the three tiers rounded from its final
   * value and the payment split of the fair tier.
   */
  function CalculateMahr(groom: GroomProfile, bride: BrideProfile): (r: CalculationResult)
    ensures r.breakdown.finalAligned >= 0.0
    ensures 0 <= r.conservative <= r.fair <= r.generous
    ensures r.promptAmount + r.deferredAmount == r.fair
  {
    var income := groom.monthlyIncome;
    var breakdown := ComputeBreakdown(
      income,
      PreferenceFactor(bride.preference),
      CityMultiplier(groom.cityTier),
      FinancialAdjustment(groom.savings, groom.debtAmount, income),
      bride.expectedMinMahr, bride.expectedMaxMahr);
    var alignedMahr := breakdown.finalAligned;
    var fair := MathRound(alignedMahr);
    var payment := PaymentSplit(fair, bride.mahrType, bride.promptPercentage);
    CalculationResult(
      MathRound(alignedMahr * 0.8),
      fair,
      MathRound(alignedMahr * 1.3),
      breakdown,
      payment.promptAmount,
      payment.deferredAmount)
  }
}
