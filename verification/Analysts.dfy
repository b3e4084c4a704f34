/** The six specialists: each turns what was observed of a project into a score, a confidence and warnings. */
module Analysts {
  import opened Wrappers
  import opened Lifecycle
  import Detector

  datatype Severity = Info | Caution | Critical

  datatype Code =
    | LiquidityUnreported | LiquidityTrendUnknown | LiquidityThin
    | MomentumInsufficientHistory | MomentumUnsupportedByVolume | MomentumUnsupportedByLiquidity | MomentumShortWindow
    | HoldersNotCollected
    | LifecycleOffPeak | LifecycleInsufficientHistory
    | RiskVeto | RiskExitElevated | RiskExitWatch | RiskCloneHigh | RiskCloneModerate | RiskStructureUnreadable
    | ResearchThinCoverage

  datatype Warning = Warning(code: Code, severity: Severity)

  /** One analyst's answer; a missing score means there was nothing to read, and then confidence is missing too. */
  datatype Reading = Reading(score: Option<real>, confidence: Option<real>, warnings: seq<Warning>)

  datatype Observation = Observation(price: Option<real>, volume: Option<real>, liquidity: Option<real>)

  /** One project as the ensemble sees it; the three dimension engines enter as their scores. */
  datatype Project = Project(
    observations: seq<Observation>,
    liquidity: Option<real>,
    momentum: Option<real>,
    structure: Option<real>,
    current: Option<real>,
    peak: Option<real>,
    days: real,
    exitSeverity: Option<string>,
    veto: bool,
    cloneRisk: Option<string>,
    changes: int)

  predicate OnScale(score: Option<real>) {
    score.Some? ==> 0.0 <= score.value <= 100.0
  }

  /** What the dimension engines promise. */
  predicate WellScored(p: Project) {
    OnScale(p.liquidity) && OnScale(p.momentum) && OnScale(p.structure)
  }

  function Min(x: real, y: real): real { if y < x then y else x }
  function Max(x: real, y: real): real { if x < y then y else x }

  function Unavailable(warnings: seq<Warning>): Reading {
    Reading(None, None, warnings)
  }

  // --- Who may warn of what -------------------------------------------------------------------------

  function SeverityOf(code: Code): Severity {
    match code
    case LiquidityThin | RiskVeto | RiskExitElevated | RiskCloneHigh => Critical
    case LiquidityUnreported | MomentumUnsupportedByVolume | MomentumUnsupportedByLiquidity | HoldersNotCollected
       | LifecycleOffPeak | RiskExitWatch | RiskCloneModerate => Caution
    case _ => Info
  }

  /** Every warning carries the severity its code always has. */
  ghost predicate Coherent(warnings: seq<Warning>) {
    forall w <- warnings :: w.severity == SeverityOf(w.code)
  }

  /** What every analyst's reading promises the orchestrator. */
  ghost predicate Sane(r: Reading) {
    && Coherent(r.warnings)
    && (r.score.Some? ==> r.score.value <= 100.0)
    && (r.confidence.Some? <==> r.score.Some?)
    && (r.confidence.Some? ==> 20.0 <= r.confidence.value <= 90.0)
  }

  ghost predicate HasCritical(warnings: seq<Warning>) {
    exists w <- warnings :: w.severity == Critical
  }

  ghost predicate Alarming(r: Reading) {
    HasCritical(r.warnings)
  }

  lemma {:induction false} Joined(xs: seq<Warning>, ys: seq<Warning>)
    ensures Coherent(xs) && Coherent(ys) ==> Coherent(xs + ys)
    ensures HasCritical(xs + ys) <==> HasCritical(xs) || HasCritical(ys)
  {
  }

  // --- Liquidity, momentum, holders -----------------------------------------------------------------

  const MIN_TREND_OBSERVATIONS: nat := 6
  const THIN_POOL_USD: real := 5000.0
  const MIN_MOMENTUM_OBSERVATIONS: nat := 8

  /** The figures that were reported, oldest first. */
  function Known(figures: seq<Option<real>>): seq<real> {
    if figures == [] then []
    else (if figures[0].Some? then [figures[0].value] else []) + Known(figures[1..])
  }

  function LiquidityColumn(observations: seq<Observation>): seq<Option<real>> {
    seq(|observations|, i requires 0 <= i < |observations| => observations[i].liquidity)
  }

  function Liquid(p: Project): seq<real> {
    Known(LiquidityColumn(p.observations))
  }

  function PriceColumn(observations: seq<Observation>): seq<Option<real>> {
    seq(|observations|, i requires 0 <= i < |observations| => observations[i].price)
  }

  function Prices(p: Project): seq<real> {
    Known(PriceColumn(p.observations))
  }

  function VolumeColumn(observations: seq<Observation>): seq<Option<real>> {
    seq(|observations|, i requires 0 <= i < |observations| => observations[i].volume)
  }

  function Volumes(p: Project): seq<real> {
    Known(VolumeColumn(p.observations))
  }

  predicate LiquidityReadable(p: Project) {
    p.liquidity.Some? && Liquid(p) != []
  }

  predicate ThinPool(p: Project) {
    LiquidityReadable(p) && Liquid(p)[|Liquid(p)| - 1] < THIN_POOL_USD
  }

  function LiquidityReading(p: Project): (r: Reading)
    requires WellScored(p)
    ensures Sane(r) && OnScale(r.score)
    ensures Alarming(r) <==> ThinPool(p)
  {
    if !LiquidityReadable(p) then Unavailable([Warning(LiquidityUnreported, Caution)])
    else
      var liquid := Liquid(p);
      var warnings :=
        (if |liquid| >= MIN_TREND_OBSERVATIONS && liquid[0] > 0.0 then [] else [Warning(LiquidityTrendUnknown, Info)])
        + (if liquid[|liquid| - 1] < THIN_POOL_USD then [Warning(LiquidityThin, Critical)] else []);
      assert ThinPool(p) ==> warnings[|warnings| - 1] == Warning(LiquidityThin, Critical);
      Reading(p.liquidity, Some(Min(85.0, 35.0 + |liquid| as real * 2.0)), warnings)
  }

  /** The move from the first figure to the last, in percent. */
  function Change(figures: seq<real>): Option<real> {
    if |figures| >= 2 && figures[0] > 0.0 then Some((figures[|figures| - 1] - figures[0]) / figures[0] * 100.0)
      else None
  }

  predicate Up(change: Option<real>) { change.Some? && change.value > 0.0 }
  predicate Down(change: Option<real>) { change.Some? && change.value < 0.0 }

  function MomentumReading(p: Project): (r: Reading)
    requires WellScored(p)
    ensures Sane(r) && OnScale(r.score) && !Alarming(r)
  {
    var prices := Prices(p);
    if p.momentum.None? || |prices| < 2 then Unavailable([Warning(MomentumInsufficientHistory, Info)])
    else
      var rising := Up(Change(prices));
      var warnings :=
        (if rising && Down(Change(Volumes(p))) then [Warning(MomentumUnsupportedByVolume, Caution)] else [])
        + (if rising && Down(Change(Liquid(p))) then [Warning(MomentumUnsupportedByLiquidity, Caution)] else [])
        + (if |prices| < MIN_MOMENTUM_OBSERVATIONS then [Warning(MomentumShortWindow, Info)] else []);
      var confidence := Min(80.0, 25.0 + |prices| as real * 3.0);
      Reading(p.momentum, Some(if warnings == [] then confidence else Max(20.0, confidence - 15.0)), warnings)
  }

  const HOLDERS_READING := Unavailable([Warning(HoldersNotCollected, Caution)])

  // --- Lifecycle ------------------------------------------------------------------------------------

  function SightingOf(p: Project): Sighting {
    Sighting(p.current, p.peak, p.days, p.exitSeverity, p.veto, |p.observations|)
  }

  function LifecycleReading(p: Project): (r: Reading)
    ensures Sane(r) && !Alarming(r)
  {
    var state := Classify(SightingOf(p));
    var measured := p.current.Some? && p.peak.Some? && p.peak.value > 0.0;
    var held := if measured then p.current.value / p.peak.value else 0.0;
    var warnings :=
      (if measured && (1.0 - held) * 100.0 >= 30.0 then [Warning(LifecycleOffPeak, Caution)] else [])
      + (if state == Detector.Recon then [Warning(LifecycleInsufficientHistory, Info)] else []);
    if !measured then Unavailable(warnings)
    else
      var confidence := if state == Detector.Recon then 20.0 else Min(90.0, 40.0 + |p.observations| as real);
      Reading(Some(Min(100.0, held * 100.0)), Some(confidence), warnings)
  }

  // --- Risk -----------------------------------------------------------------------------------------

  function Penalty(p: Project): (r: real)
    ensures r >= 0.0
    ensures p.veto ==> r >= 50.0
  {
    (if p.veto then 50.0 else 0.0)
    + (if p.exitSeverity == Some("elevated") then 35.0 else if p.exitSeverity == Some("watch") then 15.0 else 0.0)
    + (if p.cloneRisk == Some("high") then 30.0 else if p.cloneRisk == Some("moderate") then 12.0 else 0.0)
  }

  function VetoReasons(p: Project): (r: seq<Warning>)
    ensures Coherent(r) && (HasCritical(r) <==> p.veto)
  {
    if p.veto then [Warning(RiskVeto, Critical)] else []
  }

  function ExitReasons(p: Project): (r: seq<Warning>)
    ensures Coherent(r) && (HasCritical(r) <==> p.exitSeverity == Some("elevated"))
  {
    if p.exitSeverity == Some("elevated") then [Warning(RiskExitElevated, Critical)]
    else if p.exitSeverity == Some("watch") then [Warning(RiskExitWatch, Caution)] else []
  }

  function CloneReasons(p: Project): (r: seq<Warning>)
    ensures Coherent(r) && (HasCritical(r) <==> p.cloneRisk == Some("high"))
  {
    if p.cloneRisk == Some("high") then [Warning(RiskCloneHigh, Critical)]
    else if p.cloneRisk == Some("moderate") then [Warning(RiskCloneModerate, Caution)] else []
  }

  function StructureReasons(p: Project): (r: seq<Warning>)
    ensures Coherent(r) && !HasCritical(r)
  {
    if p.structure.None? then [Warning(RiskStructureUnreadable, Info)] else []
  }

  function Reasons(p: Project): seq<Warning> {
    VetoReasons(p) + ExitReasons(p) + CloneReasons(p) + StructureReasons(p)
  }

  function RiskReading(p: Project): Reading {
    var base := if p.structure.Some? then p.structure.value else 50.0;
    Reading(Some(Max(0.0, Min(100.0, base - Penalty(p)))), Some(if Reasons(p) != [] then 85.0 else 35.0), Reasons(p))
  }

  predicate Threatened(p: Project) {
    p.veto || p.exitSeverity == Some("elevated") || p.cloneRisk == Some("high")
  }

  /** Risk always answers, always names what threatens the project, and a veto always costs it half the scale. */
  lemma {:induction false} RiskAlwaysSpeaks(p: Project)
    requires WellScored(p)
    ensures var r := RiskReading(p);
            && Sane(r) && r.score.Some? && 0.0 <= r.score.value <= 100.0
            && (p.veto ==> r.score.value <= 50.0)
            && (Alarming(r) <==> Threatened(p))
  {
  }

  /** The analyst as it is written: penalties and warnings gathered one test at a time. */
  method AnalyseRisk(p: Project) returns (r: Reading)
    ensures r == RiskReading(p)
  {
    var warnings: seq<Warning> := [];
    var penalty := 0.0;
    if p.veto {
      penalty := penalty + 50.0;
      warnings := warnings + [Warning(RiskVeto, Critical)];
    }
    assert warnings == VetoReasons(p);
    if p.exitSeverity == Some("elevated") {
      penalty := penalty + 35.0;
      warnings := warnings + [Warning(RiskExitElevated, Critical)];
    } else if p.exitSeverity == Some("watch") {
      penalty := penalty + 15.0;
      warnings := warnings + [Warning(RiskExitWatch, Caution)];
    }
    assert warnings == VetoReasons(p) + ExitReasons(p);
    if p.cloneRisk == Some("high") {
      penalty := penalty + 30.0;
      warnings := warnings + [Warning(RiskCloneHigh, Critical)];
    } else if p.cloneRisk == Some("moderate") {
      penalty := penalty + 12.0;
      warnings := warnings + [Warning(RiskCloneModerate, Caution)];
    }
    assert warnings == VetoReasons(p) + ExitReasons(p) + CloneReasons(p);
    assert penalty == Penalty(p);
    var base := 50.0;
    if p.structure.Some? {
      base := p.structure.value;
    } else {
      warnings := warnings + [Warning(RiskStructureUnreadable, Info)];
    }
    assert warnings == Reasons(p);
    r := Reading(Some(Max(0.0, Min(100.0, base - penalty))), Some(if warnings != [] then 85.0 else 35.0), warnings);
  }

  // --- Research -------------------------------------------------------------------------------------

  /** Every warning of every reading, in the order the readings were taken. */
  function AllWarnings(readings: seq<Reading>): seq<Warning> {
    if readings == [] then [] else AllWarnings(readings[..|readings| - 1]) + readings[|readings| - 1].warnings
  }

  function OfSeverity(ws: seq<Warning>, severity: Severity): (r: seq<Warning>)
    ensures forall w <- r :: w in ws && w.severity == severity
    ensures forall w <- ws :: w.severity == severity ==> w in r
  {
    if ws == [] then []
    else
      var rest := OfSeverity(ws[..|ws| - 1], severity);
      if ws[|ws| - 1].severity == severity then rest + [ws[|ws| - 1]] else rest
  }

  /** The scores of the analysts that could read the project. */
  function Scores(readings: seq<Reading>): (r: seq<real>)
    ensures |r| <= |readings|
  {
    if readings == [] then []
    else
      var rest := Scores(readings[..|readings| - 1]);
      if readings[|readings| - 1].score.Some? then rest + [readings[|readings| - 1].score.value] else rest
  }

  function Least(xs: seq<real>): (r: real)
    requires xs != []
    ensures r in xs && forall x <- xs :: r <= x
  {
    if |xs| == 1 then xs[0]
    else
      assert xs == xs[..|xs| - 1] + [xs[|xs| - 1]];
      Min(Least(xs[..|xs| - 1]), xs[|xs| - 1])
  }

  function Greatest(xs: seq<real>): (r: real)
    requires xs != []
    ensures r in xs && forall x <- xs :: x <= r
  {
    if |xs| == 1 then xs[0]
    else
      assert xs == xs[..|xs| - 1] + [xs[|xs| - 1]];
      Max(Greatest(xs[..|xs| - 1]), xs[|xs| - 1])
  }

  datatype Research = Research(reading: Reading, priority: Detector.ResearchPriority)

  /** Share of the readings that could be taken, out of 100. */
  function ReadShare(readings: seq<Reading>): (r: real)
    ensures 0.0 <= r <= 100.0
  {
    if readings == [] then 0.0
    else
      ShareIsAtMostAll(|Scores(readings)| as real, |readings| as real);
      |Scores(readings)| as real / |readings| as real * 100.0
  }

  lemma {:induction false} ShareIsAtMostAll(part: real, whole: real)
    requires 0.0 <= part <= whole && whole > 0.0
    ensures 0.0 <= part / whole <= 1.0
  {
  }

  function Stakes(ws: seq<Warning>): real {
    (if OfSeverity(ws, Critical) != [] then 45.0 else 0.0) + Min(20.0, |OfSeverity(ws, Caution)| as real * 7.0)
  }

  function Newness(changes: int): real {
    if changes > 0 then Min(24.0, changes as real * 8.0) else 0.0
  }

  function Disagreement(scored: seq<real>): real {
    if |scored| >= 2 then Min(15.0, (Greatest(scored) - Least(scored)) / 6.0) else 0.0
  }

  /** The weight of each reason to look, before the scale is applied. */
  function AttentionWorth(readings: seq<Reading>, changes: int): real {
    Stakes(AllWarnings(readings)) + Newness(changes) + Disagreement(Scores(readings)) + ReadShare(readings) / 8.0
  }

  function PriorityFor(worth: real): Detector.ResearchPriority {
    if worth >= 55.0 then Detector.High else if worth >= 30.0 then Detector.Medium else Detector.Low
  }

  /** Below critical the priority follows the score: high from 55, medium from 30, low under that. */
  predicate PriorityFollows(priority: Detector.ResearchPriority, score: Option<real>) {
    && score.Some? && 0.0 <= score.value <= 100.0
    && (priority != Detector.Critical ==>
          && (priority == Detector.High <==> score.value >= 55.0)
          && (priority == Detector.Medium <==> 30.0 <= score.value < 55.0)
          && (priority == Detector.Low <==> score.value < 30.0))
  }

  function ResearchOf(readings: seq<Reading>, changes: int): (r: Research)
    ensures Sane(r.reading) && r.reading.score.Some? && !Alarming(r.reading)
  {
    var worth, share := AttentionWorth(readings, changes), ReadShare(readings);
    Research(
      Reading(Some(Max(0.0, Min(100.0, worth))), Some(Min(90.0, 40.0 + share / 2.0)),
              if share < 50.0 then [Warning(ResearchThinCoverage, Info)] else []),
      if OfSeverity(AllWarnings(readings), Critical) != [] then Detector.Critical else PriorityFor(worth))
  }

  /** A critical warning reaches the top priority on its own, and nothing else does. */
  lemma {:induction false} CriticalOnItsOwn(readings: seq<Reading>, changes: int)
    ensures ResearchOf(readings, changes).priority == Detector.Critical <==> HasCritical(AllWarnings(readings))
  {
    var critical := OfSeverity(AllWarnings(readings), Critical);
    if critical != [] { assert critical[0] in AllWarnings(readings); }
  }

  /** The reasons to look, added up one at a time. */
  method WeighAttention(readings: seq<Reading>, changes: int) returns (score: real)
    ensures score == AttentionWorth(readings, changes)
  {
    score := 0.0;
    var critical := OfSeverity(AllWarnings(readings), Critical);
    var cautions := OfSeverity(AllWarnings(readings), Caution);
    if critical != [] {
      score := score + 45.0;
    }
    if cautions != [] {
      score := score + Min(20.0, |cautions| as real * 7.0);
    }
    assert score == Stakes(AllWarnings(readings));
    if changes > 0 {
      score := score + Min(24.0, changes as real * 8.0);
    }
    assert score == Stakes(AllWarnings(readings)) + Newness(changes);
    var scored := Scores(readings);
    if |scored| >= 2 {
      var disagreement := Greatest(scored) - Least(scored);
      score := score + Min(15.0, disagreement / 6.0);
    }
    assert score == Stakes(AllWarnings(readings)) + Newness(changes) + Disagreement(scored);
    score := score + ReadShare(readings) / 8.0;
  }

  /** Rank a project by what an hour of attention is worth, from the other five readings. */
  method AnalyseResearch(readings: seq<Reading>, changes: int) returns (r: Research)
    ensures r == ResearchOf(readings, changes)
    ensures PriorityFollows(r.priority, r.reading.score)
  {
    var warnings: seq<Warning> := [];
    var critical := OfSeverity(AllWarnings(readings), Critical);
    var score := WeighAttention(readings, changes);
    var coverage := ReadShare(readings);
    if coverage < 50.0 {
      warnings := warnings + [Warning(ResearchThinCoverage, Info)];
    }
    var bounded := Max(0.0, Min(100.0, score));
    var priority;
    if critical != [] {
      priority := Detector.Critical;
    } else if bounded >= 55.0 {
      priority := Detector.High;
    } else if bounded >= 30.0 {
      priority := Detector.Medium;
    } else {
      priority := Detector.Low;
    }
    r := Research(Reading(Some(bounded), Some(Min(90.0, 40.0 + coverage / 2.0)), warnings), priority);
  }
}
