/**
 * The records and enumerations the estimation engine reads and returns.
 * Monetary amounts are exact reals: the engine only ever multiplies and adds
 * decimal constants, so nothing here models binary floating point.
 */
module Types {

  /** Employment stability of the groom; informational, never read by the engine. */
  datatype JobStability = Stable | Contract | Student

  /** Cost-of-living bracket of the couple's city (tier 1 is the most expensive). */
  datatype CityTier = Tier1 | Tier2 | Tier3

  /** The bride's qualitative preference for the size of the gift. */
  datatype BridePreference = Sunnah | Balanced | Generous

  /** How the gift is paid: all now, all later, or part now and part later. */
  datatype MahrType = Prompt | Deferred | Split

  /** The groom's financial profile; every amount is in `currency`. */
  datatype GroomProfile = GroomProfile(
    monthlyIncome: real,
    savings: real,
    monthlyExpenses: real,
    debtAmount: real,
    jobStability: JobStability,
    cityTier: CityTier,
    currency: string)

  /**
   * The bride's expectations. `promptPercentage` is the share (0 to 100)
   * paid immediately and only matters when `mahrType` is `Split`.
   */
  datatype BrideProfile = BrideProfile(
    expectedMinMahr: real,
    expectedMaxMahr: real,
    preference: BridePreference,
    mahrType: MahrType,
    promptPercentage: real)

  /** The audit trail: every intermediate value that leads to the fair estimate. */
  datatype Breakdown = Breakdown(
    income: real,
    preferenceFactor: real,
    base: real,
    cityAdjustment: real,
    financialAdjustment: real,
    adjustedBeforeAlignment: real,
    averageExpectation: real,
    finalAligned: real)

  /** The three headline tiers, the audit trail and the payment split of `fair`. */
  datatype CalculationResult = CalculationResult(
    conservative: int,
    fair: int,
    generous: int,
    breakdown: Breakdown,
    promptAmount: int,
    deferredAmount: int)
}
