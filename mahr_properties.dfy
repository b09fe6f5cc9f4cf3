/**
 * Properties of the estimation engine: the rounding it uses, its constant
 * tables, the consistency of the audit breakdown, the payment split, the
 * fields it never reads, and how the estimate moves with each input.
 *
 * Most lemmas about `CalculateMahr` first unfold it with `CalculateMahrParts`
 * into the breakdown of its three multipliers, the rounded tiers and the
 * split, and then reason about `ComputeBreakdown` over plain reals.
 */
module MahrProperties {
  import opened Types
  import opened MahrLogic

  /** The distance of `x` from 0. */
  function Abs(x: real): (d: real)
    ensures d >= 0.0 && (d == x || d == -x)
  {
    if x < 0.0 then -x else x
  }

  // ---------------------------------------------------------------- rounding

  /** `MathRound` picks an integer at least as close to `x` as any other integer. */
  lemma MathRoundIsNearest(x: real, n: int)
    ensures Abs(x - MathRound(x) as real) <= Abs(x - n as real)
  {
    var r := MathRound(x);
    assert Abs(x - r as real) <= 0.5;
    if n < r {
      assert n as real <= r as real - 1.0;
    } else if n > r {
      assert n as real >= r as real + 1.0;
    }
  }

  /** Integers are left alone, and a tie rounds up, towards +infinity. */
  lemma MathRoundIntegersAndTies(n: int)
    ensures MathRound(n as real) == n
    ensures MathRound(n as real + 0.5) == n + 1
    ensures MathRound(n as real - 0.5) == n
  {
  }

  /** `MathRound(x)` is `n` exactly when `x` lies in `[n - 0.5, n + 0.5)`. */
  lemma MathRoundIsUnique(x: real, n: int)
    ensures MathRound(x) == n <==> n as real - 0.5 <= x < n as real + 0.5
  {
  }

  /** Rounding preserves order. */
  lemma MathRoundMonotone(x: real, y: real)
    requires x <= y
    ensures MathRound(x) <= MathRound(y)
  {
  }

  // ---------------------------------------------------------- constant tables

  /** The preference factors, strictly increasing from sunnah to generous. */
  lemma PreferenceFactorTable()
    ensures PreferenceFactor(Sunnah) == 0.5
    ensures PreferenceFactor(Balanced) == 1.5
    ensures PreferenceFactor(Generous) == 3.0
    ensures PreferenceFactor(Sunnah) < PreferenceFactor(Balanced) < PreferenceFactor(Generous)
  {
  }

  /** The city multipliers, strictly increasing with the cost of living. */
  lemma CityMultiplierTable()
    ensures CityMultiplier(Tier1) == 1.4
    ensures CityMultiplier(Tier2) == 1.0
    ensures CityMultiplier(Tier3) == 0.8
    ensures CityMultiplier(Tier3) < CityMultiplier(Tier2) < CityMultiplier(Tier1)
  {
  }

  // --------------------------------------------------------------- brackets

  /**
   * Each category contributes one of its three brackets, and a bonus and a
   * penalty may both apply: with savings and debt both at six months of
   * income the adjustment is -5%.
   */
  lemma AdjustmentBrackets(savings: real, debt: real, income: real)
    ensures SavingsBonus(savings, income) in {0.20, 0.10, 0.0}
    ensures DebtPenalty(debt, income) in {-0.25, -0.10, 0.0}
    ensures savings >= 6.0 * income && debt >= 6.0 * income ==>
      FinancialAdjustment(savings, debt, income) == -0.05
  {
  }

  /** More savings or less debt never lower the adjustment, whatever the income. */
  lemma FinancialAdjustmentMonotone(s1: real, s2: real, d1: real, d2: real, income: real)
    requires s1 <= s2 && d2 <= d1
    ensures FinancialAdjustment(s1, d1, income) <= FinancialAdjustment(s2, d2, income)
  {
  }

  // -------------------------------------------------------------- breakdown

  /**
   * The result is the breakdown of the fields the engine reads, the three
   * tiers rounded from its final value, and the split of the fair tier.
   */
  lemma CalculateMahrParts(groom: GroomProfile, bride: BrideProfile)
    ensures var r := CalculateMahr(groom, bride);
      && r.breakdown == ComputeBreakdown(groom.monthlyIncome, PreferenceFactor(bride.preference),
                                         CityMultiplier(groom.cityTier),
                                         FinancialAdjustment(groom.savings, groom.debtAmount, groom.monthlyIncome),
                                         bride.expectedMinMahr, bride.expectedMaxMahr)
      && r.conservative == MathRound(0.8 * r.breakdown.finalAligned)
      && r.fair == MathRound(r.breakdown.finalAligned)
      && r.generous == MathRound(1.3 * r.breakdown.finalAligned)
      && Payment(r.promptAmount, r.deferredAmount) == PaymentSplit(r.fair, bride.mahrType, bride.promptPercentage)
  {
  }

  /**
   * The audit breakdown records its inputs and is internally consistent: the
   * base is income times the preference factor, the formula's value is the
   * base scaled by the city multiplier and by one plus the adjustment, and the
   * final value is the floored 70/30 blend of that value and the average
   * expectation.
   */
  lemma BreakdownFormulas(income: real, factor: real, cityMult: real, financialAdjustment: real,
                          expectedMin: real, expectedMax: real)
    ensures var b := ComputeBreakdown(income, factor, cityMult, financialAdjustment, expectedMin, expectedMax);
      && b.income == income
      && b.preferenceFactor == factor
      && b.cityAdjustment == cityMult
      && b.financialAdjustment == financialAdjustment
      && b.base == b.income * b.preferenceFactor
      && b.adjustedBeforeAlignment == b.base * b.cityAdjustment * (1.0 + b.financialAdjustment)
      && b.averageExpectation == (expectedMin + expectedMax) / 2.0
      && b.finalAligned == Max(b.adjustedBeforeAlignment * 0.7 + b.averageExpectation * 0.3, 0.0)
  {
  }

  /**
   * Every field of the audit breakdown is reproducible from the inputs, and
   * the three tiers are the rounded 0.8, 1 and 1.3 multiples of `finalAligned`.
   */
  lemma BreakdownConsistent(groom: GroomProfile, bride: BrideProfile)
    ensures var r := CalculateMahr(groom, bride); var b := r.breakdown;
      && b.income == groom.monthlyIncome
      && b.preferenceFactor == PreferenceFactor(bride.preference)
      && b.base == groom.monthlyIncome * b.preferenceFactor
      && b.cityAdjustment == CityMultiplier(groom.cityTier)
      && b.financialAdjustment
         == SavingsBonus(groom.savings, groom.monthlyIncome) + DebtPenalty(groom.debtAmount, groom.monthlyIncome)
      && b.adjustedBeforeAlignment == b.base * b.cityAdjustment * (1.0 + b.financialAdjustment)
      && b.averageExpectation == (bride.expectedMinMahr + bride.expectedMaxMahr) / 2.0
      && b.finalAligned == Max(b.adjustedBeforeAlignment * 0.7 + b.averageExpectation * 0.3, 0.0)
      && r.conservative == MathRound(0.8 * b.finalAligned)
      && r.fair == MathRound(b.finalAligned)
      && r.generous == MathRound(1.3 * b.finalAligned)
  {
    CalculateMahrParts(groom, bride);
    BreakdownFormulas(groom.monthlyIncome, PreferenceFactor(bride.preference), CityMultiplier(groom.cityTier),
                      FinancialAdjustment(groom.savings, groom.debtAmount, groom.monthlyIncome),
                      bride.expectedMinMahr, bride.expectedMaxMahr);
  }

  /**
   * The 70/30 blend keeps the estimate at or above the smaller of the
   * formula's value and the average expectation, and never above the larger
   * of the two (or 0, when both are negative).
   */
  lemma AlignedBetweenFormulaAndExpectation(groom: GroomProfile, bride: BrideProfile)
    ensures var b := CalculateMahr(groom, bride).breakdown;
      var low := if b.adjustedBeforeAlignment <= b.averageExpectation then b.adjustedBeforeAlignment else b.averageExpectation;
      var high := if b.adjustedBeforeAlignment <= b.averageExpectation then b.averageExpectation else b.adjustedBeforeAlignment;
      && b.finalAligned <= (if high >= 0.0 then high else 0.0)
      && low <= b.finalAligned
  {
    CalculateMahrParts(groom, bride);
    BreakdownFormulas(groom.monthlyIncome, PreferenceFactor(bride.preference), CityMultiplier(groom.cityTier),
                      FinancialAdjustment(groom.savings, groom.debtAmount, groom.monthlyIncome),
                      bride.expectedMinMahr, bride.expectedMaxMahr);
  }

  /**
   * The conservative and generous tiers are 0.8 and 1.3 times the fair tier
   * only up to rounding: each lies within one currency unit and a bit of
   * that multiple of `fair`.
   */
  lemma TiersNearMultiplesOfFair(groom: GroomProfile, bride: BrideProfile)
    ensures var r := CalculateMahr(groom, bride);
      && Abs(r.conservative as real - 0.8 * r.fair as real) <= 0.9
      && Abs(r.generous as real - 1.3 * r.fair as real) <= 1.15
  {
    CalculateMahrParts(groom, bride);
  }

  /**
   * The conservative tier is rounded from the unrounded estimate, not from
   * `fair`: an estimate of 0.6 has a fair tier of 1 but a conservative tier
   * of 0, where rounding 0.8 times `fair` would give 1.
   */
  lemma ConservativeNotFromFair()
    ensures var r := CalculateMahr(
        GroomProfile(0.0, 0.0, 0.0, 0.0, Stable, Tier2, "USD"),
        BrideProfile(1.0, 3.0, Balanced, Prompt, 50.0));
      && r.breakdown.finalAligned == 0.6
      && r.fair == 1
      && r.conservative == 0
      && MathRound(0.8 * r.fair as real) == 1
  {
    CalculateMahrParts(GroomProfile(0.0, 0.0, 0.0, 0.0, Stable, Tier2, "USD"),
                       BrideProfile(1.0, 3.0, Balanced, Prompt, 50.0));
    ExpectationOnlyEstimate();
    RoundingNearSixTenths();
  }

  /** At 0.6 the fair tier rounds up to 1, the conservative tier (0.48) down to 0. */
  lemma RoundingNearSixTenths()
    ensures MathRound(0.6) == 1 && MathRound(0.6 * 0.8) == 0 && MathRound(0.8 * 1 as real) == 1
  {
  }

  /** With no income the breakdown of expectations 1 and 3 ends at 0.6. */
  lemma ExpectationOnlyEstimate()
    ensures ComputeBreakdown(0.0, PreferenceFactor(Balanced), CityMultiplier(Tier2),
                             FinancialAdjustment(0.0, 0.0, 0.0), 1.0, 3.0).finalAligned == 0.6
  {
    assert FinancialAdjustment(0.0, 0.0, 0.0) == -0.05;
    BreakdownFormulas(0.0, 1.5, 1.0, -0.05, 1.0, 3.0);
  }

  // ---------------------------------------------------------- payment split

  /** In split mode with a share in [0, 100], neither part is negative. */
  lemma SplitWithinFair(fair: int, promptPercentage: real)
    requires fair >= 0
    requires 0.0 <= promptPercentage <= 100.0
    ensures var p := PaymentSplit(fair, Split, promptPercentage);
      0 <= p.promptAmount <= fair && 0 <= p.deferredAmount <= fair
  {
    var share := fair as real * (promptPercentage / 100.0);
    assert 0.0 <= share <= fair as real;
    MathRoundMonotone(0.0, share);
    MathRoundMonotone(share, fair as real);
  }

  /** A split of 100% pays like prompt mode and one of 0% like deferred mode. */
  lemma SplitExtremes(fair: int)
    ensures PaymentSplit(fair, Split, 100.0) == PaymentSplit(fair, Prompt, 100.0)
    ensures PaymentSplit(fair, Split, 0.0) == PaymentSplit(fair, Deferred, 0.0)
  {
  }

  /** The result's payment amounts in each mode, and their bounds. */
  lemma ResultPayment(groom: GroomProfile, bride: BrideProfile)
    ensures var r := CalculateMahr(groom, bride);
      && (bride.mahrType == Prompt ==> r.promptAmount == r.fair && r.deferredAmount == 0)
      && (bride.mahrType == Deferred ==> r.promptAmount == 0 && r.deferredAmount == r.fair)
      && (bride.mahrType == Split ==>
            r.promptAmount == MathRound(r.fair as real * (bride.promptPercentage / 100.0))
            && r.deferredAmount == r.fair - r.promptAmount)
      && (0.0 <= bride.promptPercentage <= 100.0 ==>
            0 <= r.promptAmount <= r.fair && 0 <= r.deferredAmount <= r.fair)
  {
    var r := CalculateMahr(groom, bride);
    CalculateMahrParts(groom, bride);
    if bride.mahrType == Split && 0.0 <= bride.promptPercentage <= 100.0 {
      SplitWithinFair(r.fair, bride.promptPercentage);
    }
  }

  // ------------------------------------------------------ fields never read

  /**
   * The result is determined by income, savings, debt and city tier of the
   * groom and by the expectations, preference and payment mode of the bride,
   * plus the prompt percentage in split mode.
   */
  lemma DependsOnlyOnReadFields(g1: GroomProfile, b1: BrideProfile, g2: GroomProfile, b2: BrideProfile)
    requires g1.monthlyIncome == g2.monthlyIncome && g1.savings == g2.savings
    requires g1.debtAmount == g2.debtAmount && g1.cityTier == g2.cityTier
    requires b1.expectedMinMahr == b2.expectedMinMahr && b1.expectedMaxMahr == b2.expectedMaxMahr
    requires b1.preference == b2.preference && b1.mahrType == b2.mahrType
    requires b1.mahrType == Split ==> b1.promptPercentage == b2.promptPercentage
    ensures CalculateMahr(g1, b1) == CalculateMahr(g2, b2)
  {
    CalculateMahrParts(g1, b1);
    CalculateMahrParts(g2, b2);
  }

  /**
   * Monthly expenses, job stability and currency never influence the result,
   * and the prompt percentage only does in split mode.
   */
  lemma IgnoresUnreadFields(groom: GroomProfile, bride: BrideProfile,
                            expenses: real, stability: JobStability, currency: string, percentage: real)
    ensures CalculateMahr(groom, bride)
         == CalculateMahr(groom.(monthlyExpenses := expenses, jobStability := stability, currency := currency), bride)
    ensures bride.mahrType != Split ==>
      CalculateMahr(groom, bride) == CalculateMahr(groom, bride.(promptPercentage := percentage))
  {
    DependsOnlyOnReadFields(groom, bride,
      groom.(monthlyExpenses := expenses, jobStability := stability, currency := currency), bride);
    if bride.mahrType != Split {
      DependsOnlyOnReadFields(groom, bride, groom, bride.(promptPercentage := percentage));
    }
  }

  /**
   * With no income, non-negative savings and debt reach both top brackets, so
   * the recorded adjustment is -5% although the formula's value is 0 and the
   * estimate comes from the expectations alone.
   */
  lemma ZeroIncome(groom: GroomProfile, bride: BrideProfile)
    requires groom.monthlyIncome == 0.0
    requires groom.savings >= 0.0 && groom.debtAmount >= 0.0
    ensures var b := CalculateMahr(groom, bride).breakdown;
      && b.financialAdjustment == -0.05
      && b.base == 0.0
      && b.adjustedBeforeAlignment == 0.0
      && b.finalAligned == (if b.averageExpectation >= 0.0 then 0.3 * b.averageExpectation else 0.0)
  {
    CalculateMahrParts(groom, bride);
  }

  /**
   * With no income, savings, debt or expectations, every tier and both
   * payment amounts are 0, whatever the city, preference and payment mode.
   */
  lemma AllZeroProfile(groom: GroomProfile, bride: BrideProfile)
    requires groom.monthlyIncome == 0.0 && groom.savings == 0.0 && groom.debtAmount == 0.0
    requires bride.expectedMinMahr == 0.0 && bride.expectedMaxMahr == 0.0
    ensures var r := CalculateMahr(groom, bride);
      && r.breakdown.finalAligned == 0.0
      && r.conservative == 0 && r.fair == 0 && r.generous == 0
      && r.promptAmount == 0 && r.deferredAmount == 0
  {
    ZeroIncome(groom, bride);
    BreakdownConsistent(groom, bride);
    CalculateMahrParts(groom, bride);
    var aligned := CalculateMahr(groom, bride).breakdown.finalAligned;
    MathRoundIsUnique(0.8 * aligned, 0);
    MathRoundIsUnique(aligned, 0);
    MathRoundIsUnique(1.3 * aligned, 0);
    NothingToSplit(bride.mahrType, bride.promptPercentage);
  }

  /** A fair tier of 0 is paid as nothing now and nothing later, in every mode and at any share. */
  lemma NothingToSplit(mode: MahrType, promptPercentage: real)
    ensures PaymentSplit(0, mode, promptPercentage) == Payment(0, 0)
  {
    assert 0 as real * (promptPercentage / 100.0) == 0.0;
  }

  // ------------------------------------------------------------ monotonicity

  /** Every figure of `r1` is at most the same figure of `r2`. */
  predicate NoGreater(r1: CalculationResult, r2: CalculationResult)
  {
    && r1.breakdown.finalAligned <= r2.breakdown.finalAligned
    && r1.conservative <= r2.conservative
    && r1.fair <= r2.fair
    && r1.generous <= r2.generous
  }

  /**
   * For one non-negative income, a larger preference factor, city multiplier,
   * financial adjustment (above -100%) or expectation sum never lowers the
   * unrounded estimate.
   */
  lemma BreakdownMonotone(income: real, f1: real, f2: real, c1: real, c2: real, a1: real, a2: real,
                          min1: real, max1: real, min2: real, max2: real)
    requires income >= 0.0
    requires 0.0 <= f1 <= f2 && 0.0 <= c1 <= c2 && -1.0 <= a1 <= a2
    requires min1 + max1 <= min2 + max2
    ensures ComputeBreakdown(income, f1, c1, a1, min1, max1).finalAligned
         <= ComputeBreakdown(income, f2, c2, a2, min2, max2).finalAligned
  {
    AdjustedMonotone(income, f1, f2, c1, c2, a1, a2, min1, max1, min2, max2);
    BreakdownFormulas(income, f1, c1, a1, min1, max1);
    BreakdownFormulas(income, f2, c2, a2, min2, max2);
    AlignedFollowsBlend(ComputeBreakdown(income, f1, c1, a1, min1, max1),
                        ComputeBreakdown(income, f2, c2, a2, min2, max2));
  }

  /** The formula's value alone grows with the factor, the city multiplier and the adjustment. */
  lemma AdjustedMonotone(income: real, f1: real, f2: real, c1: real, c2: real, a1: real, a2: real,
                         min1: real, max1: real, min2: real, max2: real)
    requires income >= 0.0
    requires 0.0 <= f1 <= f2 && 0.0 <= c1 <= c2 && -1.0 <= a1 <= a2
    ensures ComputeBreakdown(income, f1, c1, a1, min1, max1).adjustedBeforeAlignment
         <= ComputeBreakdown(income, f2, c2, a2, min2, max2).adjustedBeforeAlignment
  {
    FormulaValue(income, f1, c1, a1, min1, max1);
    FormulaValue(income, f2, c2, a2, min2, max2);
    ProductMonotone(income, f1, f2, c1, c2, 1.0 + a1, 1.0 + a2);
  }

  /** The formula's value of a breakdown, in terms of its inputs alone. */
  lemma FormulaValue(income: real, factor: real, cityMult: real, financialAdjustment: real,
                     expectedMin: real, expectedMax: real)
    ensures ComputeBreakdown(income, factor, cityMult, financialAdjustment, expectedMin, expectedMax).adjustedBeforeAlignment
         == income * factor * cityMult * (1.0 + financialAdjustment)
  {
  }

  /** A product of non-negative factors grows with each factor. */
  lemma ProductMonotone(i: real, f1: real, f2: real, c1: real, c2: real, k1: real, k2: real)
    requires 0.0 <= i && 0.0 <= f1 <= f2 && 0.0 <= c1 <= c2 && 0.0 <= k1 <= k2
    ensures i * f1 * c1 * k1 <= i * f2 * c2 * k2
  {
    assert i * f1 <= i * f2;
    assert i * f1 * c1 <= i * f2 * c2;
  }

  /** The floored blend grows with the formula's value and the average expectation. */
  lemma AlignedFollowsBlend(b1: Breakdown, b2: Breakdown)
    requires b1.finalAligned == Max(b1.adjustedBeforeAlignment * 0.7 + b1.averageExpectation * 0.3, 0.0)
    requires b2.finalAligned == Max(b2.adjustedBeforeAlignment * 0.7 + b2.averageExpectation * 0.3, 0.0)
    requires b1.adjustedBeforeAlignment <= b2.adjustedBeforeAlignment
    requires b1.averageExpectation <= b2.averageExpectation
    ensures b1.finalAligned <= b2.finalAligned
  {
  }

  /** The same, lifted to the whole result: no tier comes out lower. */
  lemma EstimateMonotone(g1: GroomProfile, b1: BrideProfile, g2: GroomProfile, b2: BrideProfile)
    requires g1.monthlyIncome == g2.monthlyIncome >= 0.0
    requires PreferenceFactor(b1.preference) <= PreferenceFactor(b2.preference)
    requires CityMultiplier(g1.cityTier) <= CityMultiplier(g2.cityTier)
    requires FinancialAdjustment(g1.savings, g1.debtAmount, g1.monthlyIncome)
          <= FinancialAdjustment(g2.savings, g2.debtAmount, g2.monthlyIncome)
    requires b1.expectedMinMahr + b1.expectedMaxMahr <= b2.expectedMinMahr + b2.expectedMaxMahr
    ensures NoGreater(CalculateMahr(g1, b1), CalculateMahr(g2, b2))
  {
    CalculateMahrParts(g1, b1);
    CalculateMahrParts(g2, b2);
    BreakdownMonotone(g1.monthlyIncome, PreferenceFactor(b1.preference), PreferenceFactor(b2.preference),
                      CityMultiplier(g1.cityTier), CityMultiplier(g2.cityTier),
                      FinancialAdjustment(g1.savings, g1.debtAmount, g1.monthlyIncome),
                      FinancialAdjustment(g2.savings, g2.debtAmount, g2.monthlyIncome),
                      b1.expectedMinMahr, b1.expectedMaxMahr, b2.expectedMinMahr, b2.expectedMaxMahr);
    var a1, a2 := CalculateMahr(g1, b1).breakdown.finalAligned, CalculateMahr(g2, b2).breakdown.finalAligned;
    MathRoundMonotone(0.8 * a1, 0.8 * a2);
    MathRoundMonotone(a1, a2);
    MathRoundMonotone(1.3 * a1, 1.3 * a2);
  }

  /** A more generous preference never lowers the estimate. */
  lemma PreferenceRaisesEstimate(groom: GroomProfile, bride: BrideProfile)
    requires groom.monthlyIncome >= 0.0
    ensures NoGreater(CalculateMahr(groom, bride.(preference := Sunnah)),
                      CalculateMahr(groom, bride.(preference := Balanced)))
    ensures NoGreater(CalculateMahr(groom, bride.(preference := Balanced)),
                      CalculateMahr(groom, bride.(preference := Generous)))
  {
    EstimateMonotone(groom, bride.(preference := Sunnah), groom, bride.(preference := Balanced));
    EstimateMonotone(groom, bride.(preference := Balanced), groom, bride.(preference := Generous));
  }

  /** A more expensive city never lowers the estimate. */
  lemma CityRaisesEstimate(groom: GroomProfile, bride: BrideProfile)
    requires groom.monthlyIncome >= 0.0
    ensures NoGreater(CalculateMahr(groom.(cityTier := Tier3), bride),
                      CalculateMahr(groom.(cityTier := Tier2), bride))
    ensures NoGreater(CalculateMahr(groom.(cityTier := Tier2), bride),
                      CalculateMahr(groom.(cityTier := Tier1), bride))
  {
    EstimateMonotone(groom.(cityTier := Tier3), bride, groom.(cityTier := Tier2), bride);
    EstimateMonotone(groom.(cityTier := Tier2), bride, groom.(cityTier := Tier1), bride);
  }

  /** More savings never lower the estimate. */
  lemma SavingsRaiseEstimate(groom: GroomProfile, bride: BrideProfile, moreSavings: real)
    requires groom.monthlyIncome >= 0.0
    requires groom.savings <= moreSavings
    ensures NoGreater(CalculateMahr(groom, bride), CalculateMahr(groom.(savings := moreSavings), bride))
  {
    FinancialAdjustmentMonotone(groom.savings, moreSavings, groom.debtAmount, groom.debtAmount, groom.monthlyIncome);
    EstimateMonotone(groom, bride, groom.(savings := moreSavings), bride);
  }

  /** More debt never raises the estimate. */
  lemma DebtLowersEstimate(groom: GroomProfile, bride: BrideProfile, moreDebt: real)
    requires groom.monthlyIncome >= 0.0
    requires groom.debtAmount <= moreDebt
    ensures NoGreater(CalculateMahr(groom.(debtAmount := moreDebt), bride), CalculateMahr(groom, bride))
  {
    FinancialAdjustmentMonotone(groom.savings, groom.savings, moreDebt, groom.debtAmount, groom.monthlyIncome);
    EstimateMonotone(groom.(debtAmount := moreDebt), bride, groom, bride);
  }

  /** Higher expectations never lower the estimate. */
  lemma ExpectationRaisesEstimate(groom: GroomProfile, bride: BrideProfile, newMin: real, newMax: real)
    requires groom.monthlyIncome >= 0.0
    requires bride.expectedMinMahr + bride.expectedMaxMahr <= newMin + newMax
    ensures NoGreater(CalculateMahr(groom, bride),
                      CalculateMahr(groom, bride.(expectedMinMahr := newMin, expectedMaxMahr := newMax)))
  {
    EstimateMonotone(groom, bride, groom, bride.(expectedMinMahr := newMin, expectedMaxMahr := newMax));
  }

  /**
   * A higher income can lower the estimate: at an income of 1000 savings of
   * 6000 reach the 20% bracket, at 1001 they only reach the 10% one.
   */
  lemma IncomeCliff()
    ensures var bride := BrideProfile(0.0, 0.0, Balanced, Prompt, 50.0);
      var lower := CalculateMahr(GroomProfile(1000.0, 6000.0, 0.0, 0.0, Stable, Tier2, "USD"), bride);
      var higher := CalculateMahr(GroomProfile(1001.0, 6000.0, 0.0, 0.0, Stable, Tier2, "USD"), bride);
      && lower.breakdown.adjustedBeforeAlignment == 1800.0
      && higher.breakdown.adjustedBeforeAlignment == 1651.65
      && higher.fair < lower.fair
  {
    var bride := BrideProfile(0.0, 0.0, Balanced, Prompt, 50.0);
    CalculateMahrParts(GroomProfile(1000.0, 6000.0, 0.0, 0.0, Stable, Tier2, "USD"), bride);
    CalculateMahrParts(GroomProfile(1001.0, 6000.0, 0.0, 0.0, Stable, Tier2, "USD"), bride);
    assert FinancialAdjustment(6000.0, 0.0, 1000.0) == 0.20;
    assert FinancialAdjustment(6000.0, 0.0, 1001.0) == 0.10;
    assert ComputeBreakdown(1000.0, 1.5, 1.0, 0.20, 0.0, 0.0).finalAligned == 1260.0;
    assert ComputeBreakdown(1001.0, 1.5, 1.0, 0.10, 0.0, 0.0).finalAligned == 1156.155;
  }
}
