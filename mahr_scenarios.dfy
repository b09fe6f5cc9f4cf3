/**
 * Worked examples of the engine on concrete profiles. Each one fixes the
 * brackets that fire, the audit breakdown that follows and the rounded
 * results.
 */
module MahrScenarios {
  import opened Types
  import opened MahrLogic
  import opened MahrProperties

  /**
   * The whole result, once the breakdown and the integers its three
   * multiples round to are known.
   */
  lemma ResultFrom(groom: GroomProfile, bride: BrideProfile, b: Breakdown,
                   conservative: int, fair: int, generous: int)
    requires ComputeBreakdown(groom.monthlyIncome, PreferenceFactor(bride.preference),
                              CityMultiplier(groom.cityTier),
                              FinancialAdjustment(groom.savings, groom.debtAmount, groom.monthlyIncome),
                              bride.expectedMinMahr, bride.expectedMaxMahr) == b
    requires MathRound(0.8 * b.finalAligned) == conservative
    requires MathRound(b.finalAligned) == fair
    requires MathRound(1.3 * b.finalAligned) == generous
    ensures var p := PaymentSplit(fair, bride.mahrType, bride.promptPercentage);
      CalculateMahr(groom, bride)
      == CalculationResult(conservative, fair, generous, b, p.promptAmount, p.deferredAmount)
  {
    CalculateMahrParts(groom, bride);
  }

  /** The three tiers of an estimate, given the integers each multiple rounds to. */
  lemma TiersOf(aligned: real, conservative: int, fair: int, generous: int)
    requires conservative as real - 0.5 <= 0.8 * aligned < conservative as real + 0.5
    requires fair as real - 0.5 <= aligned < fair as real + 0.5
    requires generous as real - 0.5 <= 1.3 * aligned < generous as real + 0.5
    ensures MathRound(0.8 * aligned) == conservative
    ensures MathRound(aligned) == fair
    ensures MathRound(1.3 * aligned) == generous
  {
    MathRoundIsUnique(0.8 * aligned, conservative);
    MathRoundIsUnique(aligned, fair);
    MathRoundIsUnique(1.3 * aligned, generous);
  }

  // ------------------------------------------- balanced, tier 2, no brackets

  /** Income 5000, balanced, tier 2, no brackets: 7500, blended with 6000 to 7050. */
  lemma BalancedBreakdown()
    ensures ComputeBreakdown(5000.0, PreferenceFactor(Balanced), CityMultiplier(Tier2),
                             FinancialAdjustment(0.0, 0.0, 5000.0), 5000.0, 7000.0)
         == Breakdown(5000.0, 1.5, 7500.0, 1.0, 0.0, 7500.0, 6000.0, 7050.0)
  {
    assert FinancialAdjustment(0.0, 0.0, 5000.0) == 0.0;
    BreakdownFormulas(5000.0, 1.5, 1.0, 0.0, 5000.0, 7000.0);
  }

  /** An estimate of 7050 gives the tiers 5640, 7050 and 9165. */
  lemma BalancedTiers()
    ensures MathRound(0.8 * 7050.0) == 5640 && MathRound(7050.0) == 7050 && MathRound(1.3 * 7050.0) == 9165
  {
    TiersOf(7050.0, 5640, 7050, 9165);
  }

  /** The balanced example, paid in full at the wedding. */
  lemma BalancedScenario()
    ensures CalculateMahr(GroomProfile(5000.0, 0.0, 0.0, 0.0, Stable, Tier2, "USD"),
                          BrideProfile(5000.0, 7000.0, Balanced, Prompt, 50.0))
         == CalculationResult(5640, 7050, 9165,
                              Breakdown(5000.0, 1.5, 7500.0, 1.0, 0.0, 7500.0, 6000.0, 7050.0), 7050, 0)
  {
    BalancedBreakdown();
    BalancedTiers();
    ResultFrom(GroomProfile(5000.0, 0.0, 0.0, 0.0, Stable, Tier2, "USD"),
               BrideProfile(5000.0, 7000.0, Balanced, Prompt, 50.0),
               Breakdown(5000.0, 1.5, 7500.0, 1.0, 0.0, 7500.0, 6000.0, 7050.0), 5640, 7050, 9165);
  }

  // ---------------------------------------------- sunnah, otherwise the same

  /** The same with a sunnah preference: 2500, blended with 6000 to 3550. */
  lemma SunnahBreakdown()
    ensures ComputeBreakdown(5000.0, PreferenceFactor(Sunnah), CityMultiplier(Tier2),
                             FinancialAdjustment(0.0, 0.0, 5000.0), 5000.0, 7000.0)
         == Breakdown(5000.0, 0.5, 2500.0, 1.0, 0.0, 2500.0, 6000.0, 3550.0)
  {
    assert FinancialAdjustment(0.0, 0.0, 5000.0) == 0.0;
    BreakdownFormulas(5000.0, 0.5, 1.0, 0.0, 5000.0, 7000.0);
  }

  /** An estimate of 3550 gives the tiers 2840, 3550 and 4615. */
  lemma SunnahTiers()
    ensures MathRound(0.8 * 3550.0) == 2840 && MathRound(3550.0) == 3550 && MathRound(1.3 * 3550.0) == 4615
  {
    TiersOf(3550.0, 2840, 3550, 4615);
  }

  /** The sunnah example, paid in full at the wedding. */
  lemma SunnahScenario()
    ensures CalculateMahr(GroomProfile(5000.0, 0.0, 0.0, 0.0, Stable, Tier2, "USD"),
                          BrideProfile(5000.0, 7000.0, Sunnah, Prompt, 50.0))
         == CalculationResult(2840, 3550, 4615,
                              Breakdown(5000.0, 0.5, 2500.0, 1.0, 0.0, 2500.0, 6000.0, 3550.0), 3550, 0)
  {
    SunnahBreakdown();
    SunnahTiers();
    ResultFrom(GroomProfile(5000.0, 0.0, 0.0, 0.0, Stable, Tier2, "USD"),
               BrideProfile(5000.0, 7000.0, Sunnah, Prompt, 50.0),
               Breakdown(5000.0, 0.5, 2500.0, 1.0, 0.0, 2500.0, 6000.0, 3550.0), 2840, 3550, 4615);
  }

  // ------------------------------- generous, tier 1, savings bonus, 40% split

  /** Income 5000, generous, tier 1, savings of seven months: 25200, blended with 0 to 17640. */
  lemma GenerousBreakdown()
    ensures ComputeBreakdown(5000.0, PreferenceFactor(Generous), CityMultiplier(Tier1),
                             FinancialAdjustment(35000.0, 0.0, 5000.0), 0.0, 0.0)
         == Breakdown(5000.0, 3.0, 15000.0, 1.4, 0.20, 25200.0, 0.0, 17640.0)
  {
    assert FinancialAdjustment(35000.0, 0.0, 5000.0) == 0.20;
    BreakdownFormulas(5000.0, 3.0, 1.4, 0.20, 0.0, 0.0);
  }

  /** An estimate of 17640 gives the tiers 14112, 17640 and 22932, and 40% of it is 7056. */
  lemma GenerousTiers()
    ensures MathRound(0.8 * 17640.0) == 14112 && MathRound(17640.0) == 17640 && MathRound(1.3 * 17640.0) == 22932
    ensures MathRound(17640 as real * (40.0 / 100.0)) == 7056
  {
    TiersOf(17640.0, 14112, 17640, 22932);
    MathRoundIsUnique(17640 as real * (40.0 / 100.0), 7056);
  }

  /** The generous example: 7056 paid at the wedding and 10584 later. */
  lemma GenerousSplitScenario()
    ensures CalculateMahr(GroomProfile(5000.0, 35000.0, 0.0, 0.0, Stable, Tier1, "USD"),
                          BrideProfile(0.0, 0.0, Generous, Split, 40.0))
         == CalculationResult(14112, 17640, 22932,
                              Breakdown(5000.0, 3.0, 15000.0, 1.4, 0.20, 25200.0, 0.0, 17640.0), 7056, 10584)
  {
    GenerousBreakdown();
    GenerousTiers();
    ResultFrom(GroomProfile(5000.0, 35000.0, 0.0, 0.0, Stable, Tier1, "USD"),
               BrideProfile(0.0, 0.0, Generous, Split, 40.0),
               Breakdown(5000.0, 3.0, 15000.0, 1.4, 0.20, 25200.0, 0.0, 17640.0), 14112, 17640, 22932);
  }
}
