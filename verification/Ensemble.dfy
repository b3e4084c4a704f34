/** Six readings, one verdict: the weighted score, what the blind spots cost, and the warnings worst first. */
module Ensemble {
  import opened Wrappers
  import opened Analysts
  import Lifecycle
  import Detector

  // Positions of the readings, in the order they are taken.
  const LIQUIDITY: nat := 0
  const MOMENTUM: nat := 1
  const HOLDERS: nat := 2
  const LIFECYCLE: nat := 3
  const RISK: nat := 4

  /** The declared weights, in their declared order: entry `k` names an analyst and what it counts for. */
  const ENTRIES: nat := 5

  function AnalystAt(k: nat): (i: nat)
    ensures i < 5
  {
    match k
    case 0 => LIQUIDITY
    case 1 => MOMENTUM
    case 2 => RISK
    case 3 => LIFECYCLE
    case _ => HOLDERS
  }

  function WeightAt(k: nat): (w: real)
    ensures w > 0.0
  {
    match k
    case 0 => 0.30
    case 1 => 0.28
    case 2 => 0.24
    case 3 => 0.10
    case _ => 0.08
  }

  datatype Verdict = Verdict(
    readings: seq<Reading>,
    score: Option<real>,
    confidence: Option<real>,
    coverage: real,
    state: Detector.MissionState,
    priority: Detector.ResearchPriority,
    warnings: seq<Warning>)

  // --- The weighted mean ----------------------------------------------------------------------------

  function Share(r: Reading, weight: real): real {
    if r.score.Some? then weight else 0.0
  }

  function Contribution(r: Reading, weight: real): real {
    if r.score.Some? then weight * r.score.value else 0.0
  }

  /** The weight that the first `k` entries could actually apply. */
  function Applied(readings: seq<Reading>, k: nat): real
    requires |readings| >= 5
  {
    if k == 0 then 0.0 else Applied(readings, k - 1) + Share(readings[AnalystAt(k - 1)], WeightAt(k - 1))
  }

  function Total(readings: seq<Reading>, k: nat): real
    requires |readings| >= 5
  {
    if k == 0 then 0.0 else Total(readings, k - 1) + Contribution(readings[AnalystAt(k - 1)], WeightAt(k - 1))
  }

  function Declared(k: nat): real {
    if k == 0 then 0.0 else Declared(k - 1) + WeightAt(k - 1)
  }

  lemma {:induction false} DeclaredWeightsSumToOne()
    ensures Declared(ENTRIES) == 1.0
  {
  }

  function Coverage(readings: seq<Reading>): real
    requires |readings| >= 5
  {
    Applied(readings, ENTRIES) * 100.0
  }

  function Combined(readings: seq<Reading>): Option<real>
    requires |readings| >= 5
  {
    var applied := Applied(readings, ENTRIES);
    if applied == 0.0 then None else Some(Total(readings, ENTRIES) / applied)
  }

  method Combine(readings: seq<Reading>) returns (score: Option<real>, coverage: real)
    requires |readings| >= 5
    ensures score == Combined(readings) && coverage == Coverage(readings)
  {
    var applied, total, declared := 0.0, 0.0, 0.0;
    for k := 0 to ENTRIES
      invariant applied == Applied(readings, k) && total == Total(readings, k)
      invariant declared == Declared(k)
    {
      var reading, weight := readings[AnalystAt(k)], WeightAt(k);
      declared := declared + weight;
      if reading.score.None? { continue; }
      applied := applied + weight;
      total := total + weight * reading.score.value;
    }
    DeclaredWeightsSumToOne();
    coverage := applied / declared * 100.0;
    score := if applied == 0.0 then None else Some(total / applied);
  }

  /** `total` is what `weight` gives at some value between `low` and `high`. */
  ghost predicate Between(low: real, high: real, weight: real, total: real) {
    low * weight <= total <= high * weight
  }

  lemma {:induction false} ContributionLiesBetween(r: Reading, weight: real, low: real, high: real)
    requires weight >= 0.0 && (r.score.Some? ==> low <= r.score.value <= high)
    ensures Between(low, high, Share(r, weight), Contribution(r, weight))
  {
  }

  lemma {:induction false} Accumulated(low: real, high: real, before: real, total: real, share: real,
                                       contribution: real)
    requires Between(low, high, before, total) && Between(low, high, share, contribution)
    ensures Between(low, high, before + share, total + contribution)
  {
  }

  /** The weighted sum lies between the same weight of the least and of the greatest score. */
  lemma {:induction false} TotalLiesBetween(readings: seq<Reading>, k: nat, low: real, high: real)
    requires |readings| >= 5
    requires forall i | 0 <= i < 5 :: readings[i].score.Some? ==> low <= readings[i].score.value <= high
    ensures Between(low, high, Applied(readings, k), Total(readings, k))
  {
    if k > 0 {
      var r, weight := readings[AnalystAt(k - 1)], WeightAt(k - 1);
      TotalLiesBetween(readings, k - 1, low, high);
      ContributionLiesBetween(r, weight, low, high);
      Accumulated(low, high, Applied(readings, k - 1), Total(readings, k - 1), Share(r, weight),
        Contribution(r, weight));
    }
  }

  lemma {:induction false} DivideThrough(total: real, applied: real, low: real, high: real)
    requires applied > 0.0 && low * applied <= total <= high * applied
    ensures low <= total / applied <= high
  {
  }

  lemma {:induction false} ScoresAreCovered(readings: seq<Reading>, i: nat)
    requires i < |readings| && readings[i].score.Some?
    ensures readings[i].score.value in Scores(readings)
  {
    if i < |readings| - 1 {
      ScoresAreCovered(readings[..|readings| - 1], i);
    }
  }

  /** Unavailable is not zero: the blind spots move nothing, so the mean stays inside what was actually read. */
  lemma {:induction false} MeanOfWhatWasRead(readings: seq<Reading>)
    requires |readings| == 5 && Applied(readings, ENTRIES) > 0.0 && Scores(readings) != []
    ensures Combined(readings).Some?
    ensures Least(Scores(readings)) <= Combined(readings).value <= Greatest(Scores(readings))
  {
    forall i: nat | i < |readings| && readings[i].score.Some? ensures readings[i].score.value in Scores(readings) {
      ScoresAreCovered(readings, i);
    }
    MeanLiesBetween(readings, Least(Scores(readings)), Greatest(Scores(readings)));
  }

  lemma {:induction false} MeanLiesBetween(readings: seq<Reading>, low: real, high: real)
    requires |readings| == 5 && Applied(readings, ENTRIES) > 0.0
    requires forall i | 0 <= i < 5 :: readings[i].score.Some? ==> low <= readings[i].score.value <= high
    ensures Combined(readings).Some? && low <= Combined(readings).value <= high
  {
    TotalLiesBetween(readings, ENTRIES, low, high);
    DivideThrough(Total(readings, ENTRIES), Applied(readings, ENTRIES), low, high);
  }

  /** The table, written out. */
  lemma {:induction false} AppliedByAnalyst(readings: seq<Reading>)
    requires |readings| >= 5
    ensures Applied(readings, ENTRIES) == Share(readings[LIQUIDITY], 0.30) + Share(readings[MOMENTUM], 0.28)
            + Share(readings[RISK], 0.24)
                                          + Share(readings[LIFECYCLE], 0.10) + Share(readings[HOLDERS], 0.08)
  {
    assert Applied(readings, 1) == Share(readings[LIQUIDITY], 0.30);
    assert Applied(readings, 2) == Applied(readings, 1) + Share(readings[MOMENTUM], 0.28);
    assert Applied(readings, 3) == Applied(readings, 2) + Share(readings[RISK], 0.24);
    assert Applied(readings, 4) == Applied(readings, 3) + Share(readings[LIFECYCLE], 0.10);
  }

  // --- Warnings, worst first ------------------------------------------------------------------------

  predicate Mentions(ws: seq<Warning>, code: Code) {
    exists i | 0 <= i < |ws| :: ws[i].code == code
  }

  /** The first warning given under each code, in the order first given. */
  function FirstOfEachCode(ws: seq<Warning>): seq<Warning> {
    if ws == [] then []
    else
      var seen, w := FirstOfEachCode(ws[..|ws| - 1]), ws[|ws| - 1];
      if Mentions(seen, w.code) then seen else seen + [w]
  }

  ghost predicate EachCodeOnce(ws: seq<Warning>) {
    forall i, j | 0 <= i < j < |ws| :: ws[i].code != ws[j].code
  }

  lemma {:induction false} FirstOfEachCodeIsComplete(ws: seq<Warning>)
    ensures EachCodeOnce(FirstOfEachCode(ws))
    ensures forall w <- FirstOfEachCode(ws) :: w in ws
    ensures forall code :: Mentions(FirstOfEachCode(ws), code) <==> Mentions(ws, code)
  {
    if ws != [] {
      var n := |ws| - 1;
      FirstOfEachCodeIsComplete(ws[..n]);
      var seen := FirstOfEachCode(ws[..n]);
      forall code ensures Mentions(FirstOfEachCode(ws), code) <==> Mentions(ws, code) {
        MentionsAppend(ws[..n], ws[n], code);
        MentionsAppend(seen, ws[n], code);
        assert ws == ws[..n] + [ws[n]];
      }
    }
  }

  lemma {:induction false} MentionsAppend(ws: seq<Warning>, w: Warning, code: Code)
    ensures Mentions(ws + [w], code) <==> Mentions(ws, code) || w.code == code
  {
    if Mentions(ws, code) {
      var i :| 0 <= i < |ws| && ws[i].code == code;
      assert (ws + [w])[i].code == code;
    }
    if w.code == code { assert (ws + [w])[|ws|].code == code; }
  }

  function RankOf(severity: Severity): nat {
    match severity
    case Critical => 0
    case Caution => 1
    case Info => 2
  }

  /** A stable sort by rank: equals keep the order they came in. */
  function WorstFirst(ws: seq<Warning>): seq<Warning> {
    OfSeverity(ws, Critical) + OfSeverity(ws, Caution) + OfSeverity(ws, Info)
  }

  lemma {:induction false} SeveritiesPartition(ws: seq<Warning>)
    ensures multiset(OfSeverity(ws, Critical)) + multiset(OfSeverity(ws, Caution)) + multiset(OfSeverity(ws, Info)) ==
            multiset(ws)
  {
    if ws != [] {
      SeveritiesPartition(ws[..|ws| - 1]);
      assert ws == ws[..|ws| - 1] + [ws[|ws| - 1]];
    }
  }

  lemma {:induction false} OfSeverityAppend(xs: seq<Warning>, ys: seq<Warning>, severity: Severity)
    ensures OfSeverity(xs + ys, severity) == OfSeverity(xs, severity) + OfSeverity(ys, severity)
  {
    if ys == [] {
      assert xs + ys == xs;
    } else {
      var n := |ys| - 1;
      assert (xs + ys)[..|xs + ys| - 1] == xs + ys[..n];
      OfSeverityAppend(xs, ys[..n], severity);
    }
  }

  lemma {:induction false} OfOneSeverity(ws: seq<Warning>, own: Severity, severity: Severity)
    requires forall w <- ws :: w.severity == own
    ensures OfSeverity(ws, severity) == if own == severity then ws else []
  {
    if ws != [] {
      OfOneSeverity(ws[..|ws| - 1], own, severity);
      assert ws == ws[..|ws| - 1] + [ws[|ws| - 1]];
      assert ws[|ws| - 1] in ws;
    }
  }

  lemma {:induction false} WorstFirstIsSorted(ws: seq<Warning>)
    ensures forall i, j | 0 <= i < j < |WorstFirst(ws)| ::
            RankOf(WorstFirst(ws)[i].severity) <= RankOf(WorstFirst(ws)[j].severity)
  {
  }

  lemma {:induction false} OfSeverityOfThree(xs: seq<Warning>, ys: seq<Warning>, zs: seq<Warning>, severity: Severity)
    ensures OfSeverity(xs + ys + zs, severity) == OfSeverity(xs, severity) + OfSeverity(ys, severity)
            + OfSeverity(zs, severity)
  {
    OfSeverityAppend(xs + ys, zs, severity);
    OfSeverityAppend(xs, ys, severity);
  }

  /** Of three runs of one severity each, a severity picks out its own run. */
  lemma {:induction false} PickedOut(critical: seq<Warning>, caution: seq<Warning>, info: seq<Warning>,
                                     severity: Severity)
    requires (forall w <- critical :: w.severity == Critical) && (forall w <- caution :: w.severity == Caution)
    requires forall w <- info :: w.severity == Info
    ensures OfSeverity(critical, severity) + OfSeverity(caution, severity) + OfSeverity(info, severity) ==
            match severity case Critical => critical case Caution => caution case Info => info
  {
    OfOneSeverity(critical, Critical, severity);
    OfOneSeverity(caution, Caution, severity);
    OfOneSeverity(info, Info, severity);
    OneOfThree(critical, caution, info, severity);
  }

  lemma {:induction false} OneOfThree(critical: seq<Warning>, caution: seq<Warning>, info: seq<Warning>,
                                      severity: Severity)
    ensures (if severity == Critical then critical else []) + (if severity == Caution then caution else [])
            + (if severity == Info then info else []) ==
            match severity case Critical => critical case Caution => caution case Info => info
  {
  }

  lemma {:induction false} WorstFirstIsStable(ws: seq<Warning>, severity: Severity)
    ensures OfSeverity(WorstFirst(ws), severity) == OfSeverity(ws, severity)
  {
    OfSeverityOfThree(OfSeverity(ws, Critical), OfSeverity(ws, Caution), OfSeverity(ws, Info), severity);
    PickedOut(OfSeverity(ws, Critical), OfSeverity(ws, Caution), OfSeverity(ws, Info), severity);
  }

  /** Sorted, a permutation, and stable: the three facts that single out one arrangement. */
  lemma {:induction false} WorstFirstIsAStableSort(ws: seq<Warning>, severity: Severity)
    ensures forall i, j | 0 <= i < j < |WorstFirst(ws)| ::
            RankOf(WorstFirst(ws)[i].severity) <= RankOf(WorstFirst(ws)[j].severity)
    ensures multiset(WorstFirst(ws)) == multiset(ws)
    ensures OfSeverity(WorstFirst(ws), severity) == OfSeverity(ws, severity)
  {
    WorstFirstIsSorted(ws);
    WorstFirstIsStable(ws, severity);
    SeveritiesPartition(ws);
  }

  function Ordered(readings: seq<Reading>): seq<Warning> {
    WorstFirst(FirstOfEachCode(AllWarnings(readings)))
  }

  /** One reading's warnings join those seen so far; a code already there keeps its first warning. */
  method AddUnseen(seen: seq<Warning>, own: seq<Warning>, ghost before: seq<Warning>) returns (r: seq<Warning>)
    requires seen == FirstOfEachCode(before)
    ensures r == FirstOfEachCode(before + own)
  {
    r := seen;
    assert before + own[..0] == before;
    for j := 0 to |own|
      invariant r == FirstOfEachCode(before + own[..j])
    {
      assert (before + own[..j + 1])[..|before| + j] == before + own[..j];
      if !Mentions(r, own[j].code) {
        r := r + [own[j]];
      }
    }
    assert own[..|own|] == own;
  }

  method OrderedWarnings(readings: seq<Reading>) returns (warnings: seq<Warning>)
    ensures warnings == Ordered(readings)
  {
    var seen: seq<Warning> := [];
    for i := 0 to |readings|
      invariant seen == FirstOfEachCode(AllWarnings(readings[..i]))
    {
      seen := AddUnseen(seen, readings[i].warnings, AllWarnings(readings[..i]));
      assert readings[..i + 1][..i] == readings[..i];
    }
    assert readings[..|readings|] == readings;
    warnings := WorstFirst(seen);
  }

  lemma {:induction false} WarningsOfAll(readings: seq<Reading>)
    ensures (forall i | 0 <= i < |readings| :: Coherent(readings[i].warnings)) ==> Coherent(AllWarnings(readings))
    ensures HasCritical(AllWarnings(readings)) <==> exists i | 0 <= i < |readings| :: Alarming(readings[i])
  {
    if readings != [] {
      var n := |readings| - 1;
      WarningsOfAll(readings[..n]);
      Joined(AllWarnings(readings[..n]), readings[n].warnings);
      assert forall i | 0 <= i < n :: readings[..n][i] == readings[i];
    }
  }

  /** Dropping repeats never drops an alarm, because a code always carries one severity. */
  lemma {:induction false} HeadIsTheWorst(ws: seq<Warning>)
    requires Coherent(ws)
    ensures var ordered := WorstFirst(FirstOfEachCode(ws));
            (ordered != [] && ordered[0].severity == Critical) <==> HasCritical(ws)
  {
    var once := FirstOfEachCode(ws);
    FirstOfEachCodeIsComplete(ws);
    var critical := OfSeverity(once, Critical);
    if HasCritical(ws) {
      var w :| w in ws && w.severity == Critical;
      assert Mentions(ws, w.code);
      var i :| 0 <= i < |once| && once[i].code == w.code;
      assert once[i] in critical;
    }
    assert critical != [] ==> critical[0] in once;
    HeadOfSorted(once);
  }

  lemma {:induction false} HeadOfSorted(ws: seq<Warning>)
    ensures (WorstFirst(ws) != [] && WorstFirst(ws)[0].severity == Critical) <==> OfSeverity(ws, Critical) != []
  {
  }

  // --- The verdict ----------------------------------------------------------------------------------

  function FiveReadings(p: Project): (r: seq<Reading>)
    requires WellScored(p)
    ensures |r| == 5
  {
    [LiquidityReading(p), MomentumReading(p), HOLDERS_READING, LifecycleReading(p), RiskReading(p)]
  }

  function SixReadings(p: Project): (r: seq<Reading>)
    requires WellScored(p)
    ensures |r| == 6
  {
    FiveReadings(p) + [ResearchOf(FiveReadings(p), p.changes).reading]
  }

  /** What each analyst that could answer claimed for itself. */
  function Claims(readings: seq<Reading>): seq<real> {
    if readings == [] then []
    else
      Claims(readings[..|readings| - 1])
      + (if readings[|readings| - 1].confidence.Some? then [readings[|readings| - 1].confidence.value] else [])
  }

  function Sum(xs: seq<real>): real {
    if xs == [] then 0.0 else Sum(xs[..|xs| - 1]) + xs[|xs| - 1]
  }

  function Mean(xs: seq<real>): real
    requires xs != []
  {
    Sum(xs) / |xs| as real
  }

  function Confidence(readings: seq<Reading>, coverage: real): Option<real> {
    var claims := Claims(readings);
    if claims == [] then None else Some(Min(coverage, Mean(claims)))
  }

  function Judge(p: Project): Verdict
    requires WellScored(p)
  {
    var readings := SixReadings(p);
    var coverage := Coverage(readings);
    Verdict(readings, Combined(readings), Confidence(readings, coverage), coverage, Lifecycle.Classify(SightingOf(p)),
            ResearchOf(FiveReadings(p), p.changes).priority, Ordered(readings))
  }

  method Assess(p: Project) returns (v: Verdict)
    requires WellScored(p)
    ensures v == Judge(p)
    ensures |v.readings| == 6 && PriorityFollows(v.priority, v.readings[5].score)
  {
    var risk := AnalyseRisk(p);
    var readings := [LiquidityReading(p), MomentumReading(p), HOLDERS_READING, LifecycleReading(p), risk];
    var research := AnalyseResearch(readings, p.changes);
    readings := readings + [research.reading];
    assert readings == SixReadings(p);
    var score, coverage := Combine(readings);
    var warnings := OrderedWarnings(readings);
    v := Verdict(readings, score, Confidence(readings, coverage), coverage, Lifecycle.Classify(SightingOf(p)),
                 research.priority, warnings);
  }
}
