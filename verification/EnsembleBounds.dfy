/** What the verdict can and cannot say, over every project whose dimension scores are on the 0..100 scale. */
module EnsembleBounds {
  import opened Wrappers
  import opened Analysts
  import opened Ensemble
  import Detector

  predicate LifecycleReadable(p: Project) {
    p.current.Some? && p.peak.Some? && p.peak.value > 0.0
  }

  predicate MomentumReadable(p: Project) {
    p.momentum.Some? && |Prices(p)| >= 2
  }

  ghost predicate AllSane(readings: seq<Reading>) {
    forall i | 0 <= i < |readings| :: Sane(readings[i])
  }

  lemma {:induction false} WhoAlarms(p: Project)
    requires WellScored(p)
    ensures var five := FiveReadings(p);
            && (Alarming(five[LIQUIDITY]) <==> ThinPool(p)) && (Alarming(five[RISK]) <==> Threatened(p))
            && !Alarming(five[MOMENTUM]) && !Alarming(five[HOLDERS]) && !Alarming(five[LIFECYCLE])
  {
    RiskAlwaysSpeaks(p);
    HoldersNeverAlarm();
  }

  /** An alarm among five readings is one of the five. */
  lemma {:induction false} AlarmIsOneOf(five: seq<Reading>)
    requires |five| == 5
    ensures (exists i | 0 <= i < 5 :: Alarming(five[i])) <==>
            Alarming(five[0]) || Alarming(five[1]) || Alarming(five[2]) || Alarming(five[3]) || Alarming(five[4])
  {
  }

  /** Who answers, who may raise an alarm, and over what. */
  lemma {:induction false} WhatIsRead(p: Project)
    requires WellScored(p)
    ensures AllSane(FiveReadings(p))
    ensures var five := FiveReadings(p);
            && (five[LIQUIDITY].score.Some? <==> LiquidityReadable(p))
            && (five[MOMENTUM].score.Some? <==> MomentumReadable(p))
            && five[HOLDERS].score.None?
            && (five[LIFECYCLE].score.Some? <==> LifecycleReadable(p))
            && five[RISK].score.Some? && (p.veto ==> five[RISK].score.value <= 50.0)
    ensures (exists i | 0 <= i < 5 :: Alarming(FiveReadings(p)[i])) <==> Threatened(p) || ThinPool(p)
  {
    RiskAlwaysSpeaks(p);
    HoldersNeverAlarm();
    WhoAlarms(p);
    AlarmIsOneOf(FiveReadings(p));
  }

  lemma {:induction false} HoldersNeverAlarm()
    ensures Sane(HOLDERS_READING) && !Alarming(HOLDERS_READING)
  {
  }

  /** Research is read last and not weighted back in. */
  lemma {:induction false} SixthIsNotWeighted(readings: seq<Reading>, extra: Reading, k: nat)
    requires |readings| == 5
    ensures Applied(readings + [extra], k) == Applied(readings, k)
    ensures Total(readings + [extra], k) == Total(readings, k)
  {
    if k > 0 { SixthIsNotWeighted(readings, extra, k - 1); }
  }

  lemma {:induction false} VerdictFromFive(p: Project)
    requires WellScored(p)
    ensures Judge(p).score == Combined(FiveReadings(p))
    ensures Judge(p).coverage == Coverage(FiveReadings(p))
  {
    SixthIsNotWeighted(FiveReadings(p), ResearchOf(FiveReadings(p), p.changes).reading, ENTRIES);
  }

  /** Coverage, from what was reported of the project alone: risk always, holders never. */
  lemma {:induction false} CoverageIs(p: Project)
    requires WellScored(p)
    ensures Judge(p).coverage == 24.0 + (if LiquidityReadable(p) then 30.0 else 0.0)
            + (if MomentumReadable(p) then 28.0 else 0.0)
                                 + (if LifecycleReadable(p) then 10.0 else 0.0)
    ensures 24.0 <= Judge(p).coverage <= 92.0
  {
    WhatIsRead(p);
    VerdictFromFive(p);
    AppliedByAnalyst(FiveReadings(p));
  }

  /** The score always exists, inside the readings it came from. */
  lemma {:induction false} ScoreLiesAmongTheReadings(p: Project)
    requires WellScored(p)
    ensures var scores := Scores(FiveReadings(p));
            && scores != [] && Judge(p).score.Some?
            && Least(scores) <= Judge(p).score.value <= Greatest(scores)
  {
    WhatIsRead(p);
    CoverageIs(p);
    VerdictFromFive(p);
    ScoresAreCovered(FiveReadings(p), RISK);
    MeanOfWhatWasRead(FiveReadings(p));
  }

  // --- Confidence -----------------------------------------------------------------------------------

  ghost predicate AllWithin(xs: seq<real>, low: real, high: real) {
    forall i | 0 <= i < |xs| :: low <= xs[i] <= high
  }

  lemma {:induction false} SumLiesBetween(xs: seq<real>, low: real, high: real)
    requires AllWithin(xs, low, high)
    ensures Between(low, high, |xs| as real, Sum(xs))
  {
    if xs != [] {
      var n := |xs| - 1;
      SumLiesBetween(xs[..n], low, high);
      Accumulated(low, high, n as real, Sum(xs[..n]), 1.0, xs[n]);
      assert |xs| as real == n as real + 1.0;
    }
  }

  lemma {:induction false} ClaimsAreSane(readings: seq<Reading>)
    requires AllSane(readings)
    ensures AllWithin(Claims(readings), 20.0, 90.0)
  {
    if readings != [] {
      ClaimsAreSane(readings[..|readings| - 1]);
    }
  }

  lemma {:induction false} MeanClaim(readings: seq<Reading>)
    requires AllSane(readings) && readings != [] && readings[|readings| - 1].confidence.Some?
    ensures Claims(readings) != [] && 20.0 <= Mean(Claims(readings)) <= 90.0
  {
    var claims := Claims(readings);
    ClaimsAreSane(readings);
    MeanLiesWithin(claims, 20.0, 90.0);
  }

  lemma {:induction false} MeanLiesWithin(xs: seq<real>, low: real, high: real)
    requires xs != [] && AllWithin(xs, low, high)
    ensures low <= Mean(xs) <= high
  {
    SumLiesBetween(xs, low, high);
    DivideThrough(Sum(xs), |xs| as real, low, high);
  }

  lemma {:induction false} CappedMean(readings: seq<Reading>, coverage: real)
    requires AllSane(readings) && readings != [] && readings[|readings| - 1].confidence.Some?
    requires coverage >= 24.0
    ensures Confidence(readings, coverage).Some?
    ensures 20.0 <= Confidence(readings, coverage).value <= 90.0 && Confidence(readings, coverage).value <= coverage
  {
    MeanClaim(readings);
  }

  lemma {:induction false} SixAreSane(p: Project)
    requires WellScored(p)
    ensures AllSane(SixReadings(p)) && SixReadings(p)[5].confidence.Some?
  {
    WhatIsRead(p);
  }

  /** The ensemble is never surer than its blind spots allow, and never surer than its surest analyst could be. */
  lemma {:induction false} ConfidenceIsCapped(p: Project)
    requires WellScored(p)
    ensures Judge(p).confidence.Some?
    ensures 20.0 <= Judge(p).confidence.value <= 90.0 && Judge(p).confidence.value <= Judge(p).coverage
  {
    CoverageIs(p);
    SixAreSane(p);
    CappedMean(SixReadings(p), Judge(p).coverage);
  }

  // --- Alarms ---------------------------------------------------------------------------------------

  lemma {:induction false} AlarmReachesTheTop(five: seq<Reading>, extra: Reading)
    requires |five| == 5 && AllSane(five) && Sane(extra) && !Alarming(extra)
    ensures var ordered := Ordered(five + [extra]);
            (ordered != [] && ordered[0].severity == Critical) <==> HasCritical(AllWarnings(five))
  {
    var six := five + [extra];
    assert six[..5] == five;
    WarningsOfAll(five);
    Joined(AllWarnings(five), extra.warnings);
    HeadIsTheWorst(AllWarnings(six));
  }

  /** Top priority, a critical warning at the head of the list, and a threat in the inputs are one and the same. */
  lemma {:induction false} PriorityIsCriticalExactly(p: Project)
    requires WellScored(p)
    ensures var v := Judge(p);
            && (v.priority == Detector.Critical <==> v.warnings != [] && v.warnings[0].severity == Critical)
            && (v.priority == Detector.Critical <==> Threatened(p) || ThinPool(p))
  {
    var five := FiveReadings(p);
    WhatIsRead(p);
    CriticalOnItsOwn(five, p.changes);
    WarningsOfAll(five);
    AlarmReachesTheTop(five, ResearchOf(five, p.changes).reading);
  }

  /** From the third entry on, risk at half the scale costs the weighted sum twelve points, whatever the others say. */
  lemma {:induction false} VetoedTotal(readings: seq<Reading>, k: nat)
    requires |readings| == 5 && AllSane(readings)
    requires readings[RISK].score.Some? && readings[RISK].score.value <= 50.0
    ensures Total(readings, k) <= 100.0 * Applied(readings, k) - (if k >= 3 then 12.0 else 0.0)
  {
    if k > 0 {
      VetoedTotal(readings, k - 1);
      AtMostFull(readings[AnalystAt(k - 1)], WeightAt(k - 1));
    }
  }

  lemma {:induction false} AtMostFull(r: Reading, weight: real)
    requires Sane(r) && weight >= 0.0
    ensures Contribution(r, weight) <= 100.0 * Share(r, weight)
  {
  }

  /** A veto is never averaged away. */
  lemma {:induction false} VetoPropagates(p: Project)
    requires WellScored(p) && p.veto
    ensures var v := Judge(p);
            && (v.state == Detector.Recon || v.state == Detector.LostContact)
            && v.priority == Detector.Critical
            && v.warnings != [] && v.warnings[0].severity == Critical
            && v.score.Some? && v.score.value <= 2000.0 / 23.0
  {
    PriorityIsCriticalExactly(p);
    VetoedScore(p);
  }

  lemma {:induction false} VetoedScore(p: Project)
    requires WellScored(p) && p.veto
    ensures Judge(p).score.Some? && Judge(p).score.value <= 2000.0 / 23.0
  {
    var five := FiveReadings(p);
    WhatIsRead(p);
    CoverageIs(p);
    VerdictFromFive(p);
    VetoedTotal(five, ENTRIES);
    VetoedMean(Total(five, ENTRIES), Applied(five, ENTRIES));
  }

  lemma {:induction false} VetoedMean(total: real, applied: real)
    requires 0.0 < applied <= 0.92 && total <= 100.0 * applied - 12.0
    ensures total / applied <= 2000.0 / 23.0
  {
  }

  lemma {:induction false} KnownAll(figures: seq<Option<real>>)
    requires forall i | 0 <= i < |figures| :: figures[i].Some?
    ensures |Known(figures)| == |figures|
  {
    if figures != [] { KnownAll(figures[1..]); }
  }

  /** The bound is met: every other reading perfect, and the veto still takes thirteen points off. */
  lemma {:induction false} VetoBoundIsMet(p: Project)
    requires |p.observations| == 2 && forall i | 0 <= i < 2 ::
             p.observations[i].price.Some? && p.observations[i].liquidity.Some?
    requires p.liquidity == p.momentum == p.structure == Some(100.0) && p.current == p.peak == Some(1.0)
    requires p.veto && p.exitSeverity == p.cloneRisk == None
    ensures Judge(p).score == Some(2000.0 / 23.0)
  {
    FullyObserved(p);
    ScoresWhenRead(p);
    VerdictFromFive(p);
    BestMean(FiveReadings(p));
  }

  lemma {:induction false} FullyObserved(p: Project)
    requires forall i | 0 <= i < |p.observations| :: p.observations[i].price.Some? && p.observations[i].liquidity.Some?
    ensures |Liquid(p)| == |Prices(p)| == |p.observations|
  {
    KnownAll(LiquidityColumn(p.observations));
    KnownAll(PriceColumn(p.observations));
  }

  lemma {:induction false} ScoresWhenRead(p: Project)
    requires WellScored(p)
    ensures LiquidityReadable(p) ==> LiquidityReading(p).score == p.liquidity
    ensures MomentumReadable(p) ==> MomentumReading(p).score == p.momentum
    ensures p.current == p.peak == Some(1.0) ==> LifecycleReading(p).score == Some(100.0)
    ensures p.structure == Some(100.0) && p.veto && p.exitSeverity == p.cloneRisk == None ==>
            RiskReading(p).score == Some(50.0)
  {
  }

  lemma {:induction false} BestMean(readings: seq<Reading>)
    requires |readings| == 5 && readings[HOLDERS].score == None && readings[RISK].score == Some(50.0)
    requires readings[LIQUIDITY].score == readings[MOMENTUM].score == readings[LIFECYCLE].score == Some(100.0)
    ensures Combined(readings) == Some(2000.0 / 23.0)
  {
    assert Total(readings, 1) == Contribution(readings[LIQUIDITY], 0.30) == 30.0;
    assert Total(readings, 2) == Total(readings, 1) + Contribution(readings[MOMENTUM], 0.28) == 58.0;
    assert Total(readings, 3) == Total(readings, 2) + Contribution(readings[RISK], 0.24) == 70.0;
    assert Total(readings, 4) == Total(readings, 3) + Contribution(readings[LIFECYCLE], 0.10) == 80.0;
    assert Total(readings, 5) == Total(readings, 4) + Contribution(readings[HOLDERS], 0.08) == 80.0;
    AppliedByAnalyst(readings);
  }

  // --- The list of warnings -------------------------------------------------------------------------

  /** Every code raised is listed exactly once, nothing is invented, and the worst come first. */
  lemma {:induction false} WarningsAreListedOnce(readings: seq<Reading>)
    ensures forall code :: Mentions(Ordered(readings), code) <==> Mentions(AllWarnings(readings), code)
    ensures EachCodeOnce(Ordered(readings))
    ensures forall w <- Ordered(readings) :: w in AllWarnings(readings)
    ensures forall i, j | 0 <= i < j < |Ordered(readings)| ::
            RankOf(Ordered(readings)[i].severity) <= RankOf(Ordered(readings)[j].severity)
  {
    var raised, listed := AllWarnings(readings), Ordered(readings);
    var once := FirstOfEachCode(raised);
    FirstOfEachCodeIsComplete(raised);
    WorstFirstIsAStableSort(once, Info);
    SameMembers(listed, once);
    DistinctSurvives(once, listed);
    forall code ensures Mentions(listed, code) <==> Mentions(once, code) {
      SameMentions(listed, once, code);
      SameMentions(once, listed, code);
    }
  }

  lemma {:induction false} SameMembers(xs: seq<Warning>, ys: seq<Warning>)
    requires multiset(xs) == multiset(ys)
    ensures forall w :: w in xs <==> w in ys
  {
    forall w ensures w in xs <==> w in ys {
      assert w in xs <==> w in multiset(xs);
      assert w in ys <==> w in multiset(ys);
    }
  }

  lemma {:induction false} SameMentions(xs: seq<Warning>, ys: seq<Warning>, code: Code)
    requires forall w :: w in xs <==> w in ys
    ensures Mentions(xs, code) ==> Mentions(ys, code)
  {
    if Mentions(xs, code) {
      var i :| 0 <= i < |xs| && xs[i].code == code;
      assert xs[i] in ys;
    }
  }

  lemma {:induction false} DistinctSurvives(xs: seq<Warning>, ys: seq<Warning>)
    requires multiset(xs) == multiset(ys) && EachCodeOnce(xs)
    ensures EachCodeOnce(ys)
  {
    SameMembers(xs, ys);
    forall i, j | 0 <= i < j < |ys| ensures ys[i].code != ys[j].code {
      assert ys[i] in xs && ys[j] in xs;
      OnlyOnce(xs, ys[i]);
      assert ys == ys[..j] + [ys[j]] + ys[j + 1..];
      assert ys[i] in ys[..j];
      assert multiset(ys) == multiset(ys[..j]) + multiset{ys[j]} + multiset(ys[j + 1..]);
    }
  }

  lemma {:induction false} OnlyOnce(xs: seq<Warning>, w: Warning)
    requires EachCodeOnce(xs)
    ensures multiset(xs)[w] <= 1
  {
    if xs != [] {
      var n := |xs| - 1;
      OnlyOnce(xs[..n], w);
      assert xs == xs[..n] + [xs[n]];
      if xs[n] == w {
        assert w !in xs[..n];
      }
    }
  }
}
