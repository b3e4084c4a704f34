/** What each analyst says, told from what was reported of the project, and what the research score and its priority
    are made of. */
module AnalystFacts {
  import opened Wrappers
  import opened Analysts
  import opened Ensemble
  import Lifecycle
  import Detector

  // --- What was reported ------------------------------------------------------------------------

  /** A figure is known when it is there. */
  lemma {:induction false} KnownOne(x: Option<real>)
    ensures Known([]) == [] && Known([x]) == if x.Some? then [x.value] else []
  {
    assert [x][1..] == [];
  }

  /** The reported figures are the ones that are there, in their order. */
  lemma {:induction false} KnownAppend(xs: seq<Option<real>>, ys: seq<Option<real>>)
    ensures Known(xs + ys) == Known(xs) + Known(ys)
  {
    if xs == [] {
      assert xs + ys == ys;
    } else {
      assert (xs + ys)[0] == xs[0] && (xs + ys)[1..] == xs[1..] + ys;
      KnownAppend(xs[1..], ys);
    }
  }

  lemma {:induction false} ColumnsAreTheFigures(obs: seq<Observation>, i: nat)
    requires i < |obs|
    ensures |LiquidityColumn(obs)| == |PriceColumn(obs)| == |VolumeColumn(obs)| == |obs|
    ensures LiquidityColumn(obs)[i] == obs[i].liquidity && PriceColumn(obs)[i] == obs[i].price
            && VolumeColumn(obs)[i] == obs[i].volume
  {
  }

  /** The scores of the analysts that could read, in their order. */
  lemma {:induction false} ScoresAppend(xs: seq<Reading>, ys: seq<Reading>)
    ensures Scores(xs + ys) == Scores(xs) + Scores(ys)
    decreases |ys|
  {
    if ys == [] {
      assert xs + ys == xs;
    } else {
      assert (xs + ys)[..|xs + ys| - 1] == xs + ys[..|ys| - 1];
      ScoresAppend(xs, ys[..|ys| - 1]);
    }
  }

  lemma {:induction false} ScoreOfOne(r: Reading)
    ensures Scores([r]) == if r.score.Some? then [r.score.value] else []
    ensures AllWarnings([r]) == r.warnings
  {
    assert [r][..0] == [];
  }

  lemma {:induction false} WarningsAppend(xs: seq<Reading>, ys: seq<Reading>)
    ensures AllWarnings(xs + ys) == AllWarnings(xs) + AllWarnings(ys)
    decreases |ys|
  {
    if ys == [] {
      assert xs + ys == xs;
    } else {
      assert (xs + ys)[..|xs + ys| - 1] == xs + ys[..|ys| - 1];
      WarningsAppend(xs, ys[..|ys| - 1]);
    }
  }

  // --- The readings ---------------------------------------------------------------------------------

  function AtMost(cap: real, x: real): real { if x < cap then x else cap }
  function AtLeast(floor: real, x: real): real { if x > floor then x else floor }
  function Cut(x: real): real { AtLeast(0.0, AtMost(100.0, x)) }

  ghost predicate Warns(r: Reading, code: Code, severity: Severity) {
    Warning(code, severity) in r.warnings
  }

  /** Liquidity reads when its dimension was scored and a figure reported; it warns of a trend over under six figures
      or from nothing, and of a pool under $5,000. */
  lemma {:induction false} LiquiditySays(p: Project)
    requires WellScored(p)
    ensures var r, xs := LiquidityReading(p), Known(LiquidityColumn(p.observations));
            && (r.score.Some? <==> p.liquidity.Some? && xs != [])
            && (r.score.Some? ==> r.score == p.liquidity)
            && (r.score.Some? ==> r.confidence == Some(AtMost(85.0, 35.0 + 2.0 * |xs| as real)))
            && (Warns(r, LiquidityUnreported, Caution) <==> r.score.None?)
            && (Warns(r, LiquidityTrendUnknown, Info) <==> r.score.Some? && (|xs| < 6 || xs[0] <= 0.0))
            && (Warns(r, LiquidityThin, Severity.Critical) <==> r.score.Some? && xs[|xs| - 1] < 5000.0)
            && forall w <- r.warnings :: w.code in {LiquidityUnreported, LiquidityTrendUnknown, LiquidityThin}
  {
  }

  /** The last figure above, or below, a positive first one. */
  predicate Climbed(xs: seq<real>) { |xs| >= 2 && xs[0] > 0.0 && xs[|xs| - 1] > xs[0] }
  predicate Sank(xs: seq<real>) { |xs| >= 2 && xs[0] > 0.0 && xs[|xs| - 1] < xs[0] }

  lemma {:induction false} ChangeHasTheSign(xs: seq<real>)
    ensures Up(Change(xs)) <==> Climbed(xs)
    ensures Down(Change(xs)) <==> Sank(xs)
  {
    if |xs| >= 2 && xs[0] > 0.0 {
      var d, first := xs[|xs| - 1] - xs[0], xs[0];
      assert d / first * first == d;
    }
  }

  /** Momentum reads when its dimension was scored and two prices reported; it warns of a climb on falling volume or
      liquidity, and of under eight prices, and trusts itself less for any warning. */
  lemma {:induction false} MomentumSays(p: Project)
    requires WellScored(p)
    ensures var r, xs := MomentumReading(p), Known(PriceColumn(p.observations));
            var volumes, liquid := Known(VolumeColumn(p.observations)), Known(LiquidityColumn(p.observations));
            && (r.score.Some? <==> p.momentum.Some? && |xs| >= 2)
            && (r.score.Some? ==>
                  && r.score == p.momentum
                  && var trust := AtMost(80.0, 25.0 + 3.0 * |xs| as real);
                  r.confidence == Some(if r.warnings == [] then trust else AtLeast(20.0, trust - 15.0)))
            && (Warns(r, MomentumInsufficientHistory, Info) <==> r.score.None?)
            && (Warns(r, MomentumUnsupportedByVolume, Caution) <==> r.score.Some? && Climbed(xs) && Sank(volumes))
            && (Warns(r, MomentumUnsupportedByLiquidity, Caution) <==> r.score.Some? && Climbed(xs) && Sank(liquid))
            && (Warns(r, MomentumShortWindow, Info) <==> r.score.Some? && |xs| < 8)
            && forall w <- r.warnings :: w.code in {MomentumInsufficientHistory, MomentumUnsupportedByVolume,
                                                    MomentumUnsupportedByLiquidity, MomentumShortWindow}
  {
    ChangeHasTheSign(Prices(p));
    ChangeHasTheSign(Volumes(p));
    ChangeHasTheSign(Liquid(p));
  }

  /** Holders never read and always say so. */
  lemma {:induction false} HoldersSay()
    ensures HOLDERS_READING == Reading(None, None, [Warning(HoldersNotCollected, Caution)])
  {
  }

  /** Lifecycle scores the share of a positive peak still held, out of 100; it warns 30% off that peak and below twelve
      observations or without a figure. */
  lemma {:induction false} LifecycleSays(p: Project)
    ensures var r := LifecycleReading(p);
            var measured := p.current.Some? && p.peak.Some? && p.peak.value > 0.0;
            var short := |p.observations| < 12 || p.current.None?;
            && (r.score.Some? <==> measured)
            && (measured ==>
                  && r.score == Some(AtMost(100.0, p.current.value / p.peak.value * 100.0))
                  && r.confidence == Some(if short then 20.0 else AtMost(90.0, 40.0 + |p.observations| as real)))
            && (Warns(r, LifecycleOffPeak, Caution) <==> measured && p.current.value / p.peak.value * 100.0 <= 70.0)
            && (Warns(r, LifecycleInsufficientHistory, Info) <==> short)
            && forall w <- r.warnings :: w.code in {LifecycleOffPeak, LifecycleInsufficientHistory}
  {
  }

  /** Risk starts from the structure's score, or 50, and takes off 50 for a veto, 35 or 15 for exit watch, 30 or 12 for
      a clone. */
  lemma {:induction false} RiskSays(p: Project)
    ensures var r := RiskReading(p);
            var base := if p.structure.Some? then p.structure.value else 50.0;
            var veto := if p.veto then 50.0 else 0.0;
            var leaving := if p.exitSeverity == Some("elevated") then 35.0
                           else if p.exitSeverity == Some("watch") then 15.0 else 0.0;
            var clone := if p.cloneRisk == Some("high") then 30.0 else if p.cloneRisk == Some("moderate") then 12.0
              else 0.0;
            && r.score == Some(Cut(base - veto - leaving - clone))
            && r.confidence == Some(if r.warnings == [] then 35.0 else 85.0)
  {
  }

  lemma {:induction false} RiskWarnsOf(p: Project)
    ensures var r := RiskReading(p);
            && (Warns(r, RiskVeto, Severity.Critical) <==> p.veto)
            && (Warns(r, RiskExitElevated, Severity.Critical) <==> p.exitSeverity == Some("elevated"))
            && (Warns(r, RiskExitWatch, Caution) <==> p.exitSeverity == Some("watch"))
            && (Warns(r, RiskCloneHigh, Severity.Critical) <==> p.cloneRisk == Some("high"))
            && (Warns(r, RiskCloneModerate, Caution) <==> p.cloneRisk == Some("moderate"))
            && (Warns(r, RiskStructureUnreadable, Info) <==> p.structure.None?)
  {
    var a, b, c, d := VetoReasons(p), ExitReasons(p), CloneReasons(p), StructureReasons(p);
    assert forall w :: w in Reasons(p) <==> w in a || w in b || w in c || w in d;
  }

  // --- The research score ------------------------------------------------------------------------

  /** How many warnings of this severity the readings carry, repeats included. */
  function CountOf(ws: seq<Warning>, severity: Severity): nat {
    if ws == [] then 0
    else CountOf(ws[1..], severity) + if ws[0].severity == severity then 1 else 0
  }

  lemma {:induction false} CountAppend(xs: seq<Warning>, ys: seq<Warning>, severity: Severity)
    ensures CountOf(xs + ys, severity) == CountOf(xs, severity) + CountOf(ys, severity)
  {
    if xs == [] {
      assert xs + ys == ys;
    } else {
      assert (xs + ys)[0] == xs[0] && (xs + ys)[1..] == xs[1..] + ys;
      CountAppend(xs[1..], ys, severity);
    }
  }

  lemma {:induction false} OfSeverityCounts(ws: seq<Warning>, severity: Severity)
    ensures |OfSeverity(ws, severity)| == CountOf(ws, severity)
  {
    if ws != [] {
      var n := |ws| - 1;
      OfSeverityCounts(ws[..n], severity);
      assert ws == ws[..n] + [ws[n]];
      CountAppend(ws[..n], [ws[n]], severity);
      assert [ws[n]][1..] == [];
    }
  }

  /** The distance between the highest and the lowest score, when at least two analysts could read. */
  function Spread(readings: seq<Reading>): real {
    var xs := Scores(readings);
    if |xs| >= 2 then Greatest(xs) - Least(xs) else 0.0
  }

  function ReadCount(readings: seq<Reading>): nat {
    |Scores(readings)|
  }

  /** The score: 45 for any critical warning, 7 a caution up to 20, 8 a change up to 24, a sixth of the spread up to 15,
      and an eighth of the coverage, cut to the scale. */
  function Made(critical: bool, cautions: nat, changes: int, spread: real, coverage: real): real {
    Cut(Uncut(critical, cautions, changes, spread, coverage))
  }

  function Uncut(critical: bool, cautions: nat, changes: int, spread: real, coverage: real): real {
    (if critical then 45.0 else 0.0) + AtMost(20.0, 7.0 * cautions as real)
    + (if changes > 0 then AtMost(24.0, 8.0 * changes as real) else 0.0)
    + AtMost(15.0, spread / 6.0) + coverage / 8.0
  }

  function CoverageOf(readings: seq<Reading>): real
    requires readings != []
  {
    ReadCount(readings) as real / |readings| as real * 100.0
  }

  lemma {:induction false} StakesAre(ws: seq<Warning>)
    ensures Stakes(ws) == (if CountOf(ws, Severity.Critical) > 0 then 45.0 else 0.0)
            + AtMost(20.0, 7.0 * CountOf(ws, Caution) as real)
  {
    OfSeverityCounts(ws, Severity.Critical);
    OfSeverityCounts(ws, Caution);
  }

  lemma {:induction false} DisagreementIs(readings: seq<Reading>)
    ensures Disagreement(Scores(readings)) == AtMost(15.0, Spread(readings) / 6.0)
  {
  }

  lemma {:induction false} NewnessIs(changes: int)
    ensures Newness(changes) == if changes > 0 then AtMost(24.0, 8.0 * changes as real) else 0.0
  {
  }

  lemma {:induction false} ScoreIsTheWorth(readings: seq<Reading>, changes: int)
    ensures var r := ResearchOf(readings, changes).reading;
            && r.score == Some(Cut(AttentionWorth(readings, changes)))
            && r.confidence == Some(AtMost(90.0, 40.0 + ReadShare(readings) / 2.0))
            && r.warnings == if ReadShare(readings) < 50.0 then [Warning(ResearchThinCoverage, Info)] else []
  {
  }

  lemma {:induction false} ScoreIsMadeOf(readings: seq<Reading>, changes: int)
    requires readings != []
    ensures var ws, r, coverage := AllWarnings(readings), ResearchOf(readings, changes).reading, CoverageOf(readings);
            && r.score == Some(Made(CountOf(ws, Severity.Critical) > 0, CountOf(ws, Caution), changes,
              Spread(readings), coverage))
            && r.confidence == Some(AtMost(90.0, 40.0 + coverage / 2.0))
            && r.warnings == if coverage < 50.0 then [Warning(ResearchThinCoverage, Info)] else []
  {
    ScoreIsTheWorth(readings, changes);
    ReadShareIs(readings);
    WorthIs(readings, changes);
  }

  lemma {:induction false} ReadShareIs(readings: seq<Reading>)
    requires readings != []
    ensures ReadShare(readings) == CoverageOf(readings)
  {
  }

  lemma {:induction false} WorthIs(readings: seq<Reading>, changes: int)
    requires readings != []
    ensures var ws := AllWarnings(readings);
            AttentionWorth(readings, changes) ==
            Uncut(CountOf(ws, Severity.Critical) > 0, CountOf(ws, Caution), changes, Spread(readings),
              CoverageOf(readings))
  {
    StakesAre(AllWarnings(readings));
    NewnessIs(changes);
    DisagreementIs(readings);
    ReadShareIs(readings);
  }

  /** More to worry about: critical warnings where there were, no fewer cautions, no less spread, no less read. */
  ghost predicate AtLeastAsMuch(a: seq<Reading>, b: seq<Reading>) {
    && |a| == |b|
    && (CountOf(AllWarnings(a), Severity.Critical) > 0 ==> CountOf(AllWarnings(b), Severity.Critical) > 0)
    && CountOf(AllWarnings(a), Caution) <= CountOf(AllWarnings(b), Caution)
    && Spread(a) <= Spread(b) && ReadCount(a) <= ReadCount(b)
  }

  lemma {:induction false} MadeGrows(x: bool, y: bool, c: nat, d: nat, n: int, m: int, s: real, t: real, u: real,
                                     v: real)
    requires (x ==> y) && c <= d && n <= m && s <= t && u <= v
    ensures Made(x, c, n, s, u) <= Made(y, d, m, t, v)
  {
  }

  /** None of them ever lowers the score, and neither does one more change. */
  lemma {:induction false} MoreNeverScoresLess(a: seq<Reading>, b: seq<Reading>, changes: int, more: int)
    requires a != [] && AtLeastAsMuch(a, b) && changes <= more
    ensures ResearchOf(a, changes).reading.score.value <= ResearchOf(b, more).reading.score.value
  {
    ScoreIsMadeOf(a, changes);
    ScoreIsMadeOf(b, more);
    Shares(ReadCount(a) as real, ReadCount(b) as real, |a| as real);
    var ws, vs := AllWarnings(a), AllWarnings(b);
    MadeGrows(CountOf(ws, Severity.Critical) > 0, CountOf(vs, Severity.Critical) > 0, CountOf(ws, Caution),
              CountOf(vs, Caution), changes, more, Spread(a), Spread(b), CoverageOf(a), CoverageOf(b));
  }

  lemma {:induction false} Shares(x: real, y: real, whole: real)
    requires x <= y && whole > 0.0
    ensures x / whole * 100.0 <= y / whole * 100.0
  {
    Lifecycle.SharesGrow(x, y, whole);
  }

  /** Below critical the priority follows the returned score: high from 55, medium from 30, low under that. */
  lemma {:induction false} PriorityFollowsTheScore(readings: seq<Reading>, changes: int)
    requires CountOf(AllWarnings(readings), Severity.Critical) == 0
    ensures var r := ResearchOf(readings, changes);
            && r.reading.score.Some? && r.priority != Detector.Critical
            && (r.priority == Detector.High <==> r.reading.score.value >= 55.0)
            && (r.priority == Detector.Medium <==> 30.0 <= r.reading.score.value < 55.0)
            && (r.priority == Detector.Low <==> r.reading.score.value < 30.0)
  {
    OfSeverityCounts(AllWarnings(readings), Severity.Critical);
  }

  // --- The verdict -----------------------------------------------------------------------------------

  lemma {:induction false} NoCriticalNoCount(ws: seq<Warning>)
    ensures CountOf(ws, Severity.Critical) == 0 <==> !HasCritical(ws)
  {
    OfSeverityCounts(ws, Severity.Critical);
    var critical := OfSeverity(ws, Severity.Critical);
    if critical != [] { assert critical[0] in ws; }
  }

  /** The priority of a project, from its warnings and the research score alone. */
  lemma {:induction false} VerdictPriorityFollowsTheScore(p: Project)
    requires WellScored(p)
    ensures var v := Judge(p);
            && v.readings == FiveReadings(p) + [ResearchOf(FiveReadings(p), p.changes).reading]
            && PriorityFollows(v.priority, v.readings[5].score)
  {
    var five := FiveReadings(p);
    CriticalOnItsOwn(five, p.changes);
    NoCriticalNoCount(AllWarnings(five));
    if !HasCritical(AllWarnings(five)) { PriorityFollowsTheScore(five, p.changes); }
  }

  function ScoreOf(r: Reading, weight: real): real { if r.score.Some? then weight * r.score.value else 0.0 }
  function WeightOf(r: Reading, weight: real): real { if r.score.Some? then weight else 0.0 }

  /** Without holders: 30 parts liquidity, 28 momentum, 24 risk, 10 lifecycle, over the parts that could be read. */
  lemma {:induction false} CombinedIs(readings: seq<Reading>)
    requires |readings| >= 5 && readings[HOLDERS].score.None? && readings[RISK].score.Some?
    ensures var l, m, c, r := readings[LIQUIDITY], readings[MOMENTUM], readings[LIFECYCLE], readings[RISK];
            var parts := WeightOf(l, 0.30) + WeightOf(m, 0.28) + WeightOf(r, 0.24) + WeightOf(c, 0.10);
            var sum := ScoreOf(l, 0.30) + ScoreOf(m, 0.28) + ScoreOf(r, 0.24) + ScoreOf(c, 0.10);
            parts > 0.0 && Combined(readings) == Some(sum / parts) && Coverage(readings) == parts * 100.0
  {
    AppliedByAnalyst(readings);
    TotalByAnalyst(readings);
  }

  /** The score and the coverage of a verdict are the combination of those four readings. */
  lemma {:induction false} VerdictScoreIs(p: Project)
    requires WellScored(p)
    ensures var six := SixReadings(p);
            && six[LIQUIDITY] == LiquidityReading(p) && six[MOMENTUM] == MomentumReading(p)
            && six[LIFECYCLE] == LifecycleReading(p) && six[RISK] == RiskReading(p)
            && six[HOLDERS].score.None? && six[RISK].score.Some?
            && Judge(p).score == Combined(six) && Judge(p).coverage == Coverage(six)
  {
  }

  lemma {:induction false} TotalByAnalyst(readings: seq<Reading>)
    requires |readings| >= 5
    ensures Total(readings, ENTRIES) == ScoreOf(readings[LIQUIDITY], 0.30) + ScoreOf(readings[MOMENTUM], 0.28)
                                        + ScoreOf(readings[RISK], 0.24) + ScoreOf(readings[LIFECYCLE], 0.10)
                                        + ScoreOf(readings[HOLDERS], 0.08)
  {
    assert Total(readings, 1) == ScoreOf(readings[LIQUIDITY], 0.30);
    assert Total(readings, 2) == Total(readings, 1) + ScoreOf(readings[MOMENTUM], 0.28);
    assert Total(readings, 3) == Total(readings, 2) + ScoreOf(readings[RISK], 0.24);
    assert Total(readings, 4) == Total(readings, 3) + ScoreOf(readings[LIFECYCLE], 0.10);
  }

  function ClaimOf(r: Reading): real { if r.confidence.Some? then r.confidence.value else 0.0 }
  function ClaimsOf(r: Reading): nat { if r.confidence.Some? then 1 else 0 }

  lemma {:induction false} ClaimsOfOne(readings: seq<Reading>, r: Reading)
    ensures |Claims(readings + [r])| == |Claims(readings)| + ClaimsOf(r)
    ensures Sum(Claims(readings + [r])) == Sum(Claims(readings)) + ClaimOf(r)
  {
    assert (readings + [r])[..|readings|] == readings;
    var xs := Claims(readings);
    if r.confidence.Some? {
      assert (xs + [r.confidence.value])[..|xs|] == xs;
    } else {
      assert xs + [] == xs;
    }
  }

  /** The confidence of a verdict: the mean of what the six that answered claim, capped by coverage. */
  lemma {:induction false} MeanOfSix(six: seq<Reading>)
    requires |six| == 6
    ensures |Claims(six)| == ClaimsOf(six[0]) + ClaimsOf(six[1]) + ClaimsOf(six[2]) + ClaimsOf(six[3])
            + ClaimsOf(six[4]) + ClaimsOf(six[5])
    ensures Sum(Claims(six)) == ClaimOf(six[0]) + ClaimOf(six[1]) + ClaimOf(six[2]) + ClaimOf(six[3]) + ClaimOf(six[4])
            + ClaimOf(six[5])
    ensures Claims(six) != [] ==>
            forall coverage :: Confidence(six, coverage) ==
              Some(AtMost(coverage, Sum(Claims(six)) / |Claims(six)| as real))
  {
    assert six[..0] == [] && Claims([]) == [];
    forall n: nat | n < 6 ensures six[..n + 1] == six[..n] + [six[n]] {}
    ClaimsOfOne(six[..0], six[0]);
    ClaimsOfOne(six[..1], six[1]);
    ClaimsOfOne(six[..2], six[2]);
    ClaimsOfOne(six[..3], six[3]);
    ClaimsOfOne(six[..4], six[4]);
    ClaimsOfOne(six[..5], six[5]);
    assert six[..6] == six;
  }

  /** The state of a verdict is the classification of exactly what was observed. */
  lemma {:induction false} VerdictStateIs(p: Project)
    requires WellScored(p)
    ensures Judge(p).state ==
            Lifecycle.Classify(Lifecycle.Sighting(p.current, p.peak, p.days, p.exitSeverity, p.veto, |p.observations|))
  {
  }

  // --- The first of each code ----------------------------------------------------------------------------

  /** Warnings keep the order they were first given in. */
  lemma {:induction false} FirstsOnlyGrow(ws: seq<Warning>, n: nat)
    requires n <= |ws|
    ensures FirstOfEachCode(ws[..n]) <= FirstOfEachCode(ws)
    decreases |ws|
  {
    if n == |ws| {
      assert ws[..n] == ws;
    } else {
      assert ws[..|ws| - 1][..n] == ws[..n];
      FirstsOnlyGrow(ws[..|ws| - 1], n);
    }
  }

  /** A warning whose code was not given before it is kept, right after the ones given before it. */
  lemma {:induction false} FirstGivenIsKept(ws: seq<Warning>, i: nat)
    requires i < |ws| && forall j | 0 <= j < i :: ws[j].code != ws[i].code
    ensures FirstOfEachCode(ws[..i]) + [ws[i]] <= FirstOfEachCode(ws)
  {
    FirstOfEachCodeIsComplete(ws[..i]);
    assert ws[..i + 1][..i] == ws[..i];
    FirstsOnlyGrow(ws, i + 1);
  }

  /** Only critical warnings come before a critical one, and no remark comes before a caution. */
  lemma {:induction false} WorstComeFirst(readings: seq<Reading>, i: nat, j: nat)
    requires i < j < |Ordered(readings)|
    ensures Ordered(readings)[j].severity == Critical ==> Ordered(readings)[i].severity == Critical
    ensures Ordered(readings)[j].severity == Caution ==> Ordered(readings)[i].severity != Info
  {
    WorstFirstIsSorted(FirstOfEachCode(AllWarnings(readings)));
  }
}
