/** Change detection: the events worth recording between two observations of one token. */
module Detector {
  import opened Wrappers

  datatype MissionState = Recon | LaunchWindow | Ascent | Orbit | HoldingPattern | ReEntry | LostContact
  datatype ResearchPriority = Low | Medium | High | Critical

  datatype EventKind =
    | MissionPromoted | MissionDowngraded
    | PriorityIncreased | PriorityDecreased
    | RiskIncreased | RiskResolved
    | CloneDetected | CloneResolved
    | LiquidityImproved | LiquidityWeakened
    | MomentumImproved | MomentumWeakened
    | ExitWatchActivated | ExitWatchCleared
    | ConfidenceIncreased | ConfidenceDecreased
    | FirstAnalysed

  datatype EventSeverity = Info | Notable | Urgent

  const MATERIAL_CONFIDENCE_DELTA: real := 10.0
  const MATERIAL_DIMENSION_DELTA: real := 15.0

  /** Missions from the worst to the best. */
  function MissionRank(m: MissionState): nat {
    match m
    case LostContact => 0
    case ReEntry => 1
    case Recon => 2
    case HoldingPattern => 3
    case LaunchWindow => 4
    case Orbit => 5
    case Ascent => 6
  }

  function PriorityRank(p: ResearchPriority): nat {
    match p
    case Low => 0
    case Medium => 1
    case High => 2
    case Critical => 3
  }

  datatype TokenState = TokenState(
    mint: string,
    mission: Option<MissionState>,
    priority: Option<ResearchPriority>,
    score: Option<real>,
    confidence: Option<real>,
    liquidity: Option<real>,
    momentum: Option<real>,
    risk: Option<real>,
    cloneRisk: Option<string>,
    exitSeverity: Option<string>,
    warningCodes: set<string>)

  /** What an event records of each side of the change; figures are kept unformatted. */
  datatype Value = Absent | OfMission(mission: MissionState) | OfPriority(priority: ResearchPriority)
    | Text(text: string) | Figure(figure: real)

  datatype Event = Event(mint: string, kind: EventKind, severity: EventSeverity, previous: Value, current: Value,
                         analyst: Option<string>)

  function OrElse(s: Option<string>, otherwise: string): string {
    if s.None? || s.value == "" then otherwise else s.value
  }

  /** Kinds that say nothing about the mission. */
  predicate Neutral(k: EventKind) {
    k != FirstAnalysed && k != MissionPromoted && k != MissionDowngraded
  }

  /** Events about this token, none of them about its mission. */
  ghost predicate Plain(events: seq<Event>, mint: string) {
    forall i | 0 <= i < |events| :: events[i].mint == mint && Neutral(events[i].kind)
  }

  function Mission(previous: TokenState, current: TokenState): seq<Event> {
    var before, after := previous.mission, current.mission;
    if before.None? || after.None? || before == after then []
    else
      var promoted := MissionRank(after.value) > MissionRank(before.value);
      [Event(current.mint, if promoted then MissionPromoted else MissionDowngraded,
             if promoted then Notable else Urgent, OfMission(before.value), OfMission(after.value), Some("lifecycle"))]
  }

  function Priority(previous: TokenState, current: TokenState): (r: seq<Event>)
    ensures Plain(r, current.mint)
  {
    var before, after := previous.priority, current.priority;
    if before.None? || after.None? || before == after then []
    else
      var increased := PriorityRank(after.value) > PriorityRank(before.value);
      [Event(current.mint, if increased then PriorityIncreased else PriorityDecreased,
             if after.value == Critical then Urgent else if increased then Notable else Info,
             OfPriority(before.value), OfPriority(after.value), Some("research"))]
  }

  function ExitLevel(s: TokenState): string {
    OrElse(s.exitSeverity, "clear")
  }

  function ExitWatch(previous: TokenState, current: TokenState): (r: seq<Event>)
    ensures Plain(r, current.mint)
  {
    var before, after := ExitLevel(previous), ExitLevel(current);
    if before == after then []
    else
      var activated := before == "clear" && after != "clear";
      var cleared := before != "clear" && after == "clear";
      var kind := if activated then ExitWatchActivated else if cleared then ExitWatchCleared
                  else if after == "elevated" then RiskIncreased else RiskResolved;
      [Event(current.mint, kind, if activated then Urgent else Notable, Text(before), Text(after), Some("risk"))]
  }

  function CloneLevel(s: TokenState): string {
    OrElse(s.cloneRisk, "none")
  }

  predicate Serious(level: string) {
    level == "moderate" || level == "high"
  }

  function Clone(previous: TokenState, current: TokenState): (r: seq<Event>)
    ensures Plain(r, current.mint)
  {
    var before, after := CloneLevel(previous), CloneLevel(current);
    if Serious(before) == Serious(after) then []
    else
      var detected := Serious(after);
      [Event(current.mint, if detected then CloneDetected else CloneResolved, if detected then Urgent else Info,
             Text(before), Text(after), Some("risk"))]
  }

  function Abs(x: real): real { if x < 0.0 then -x else x }

  /** Both figures are known and differ by at least `delta`. */
  predicate Material(before: Option<real>, after: Option<real>, delta: real) {
    before.Some? && after.Some? && Abs(after.value - before.value) >= delta
  }

  datatype Check = Check(analyst: string, before: Option<real>, after: Option<real>, up: EventKind, down: EventKind)

  /** The dimensions whose direction means something; a rising risk score is a risk resolving. */
  function Checks(previous: TokenState, current: TokenState): (r: seq<Check>)
    ensures |r| == 3 && forall i | 0 <= i < |r| :: Neutral(r[i].up) && Neutral(r[i].down)
  {
    [Check("liquidity", previous.liquidity, current.liquidity, LiquidityImproved, LiquidityWeakened),
     Check("momentum", previous.momentum, current.momentum, MomentumImproved, MomentumWeakened),
     Check("risk", previous.risk, current.risk, RiskResolved, RiskIncreased)]
  }

  function Dimension(mint: string, c: Check): (r: seq<Event>)
    ensures Neutral(c.up) && Neutral(c.down) ==> Plain(r, mint)
  {
    if !Material(c.before, c.after, MATERIAL_DIMENSION_DELTA) then []
    else
      var improved := c.after.value - c.before.value > 0.0;
      [Event(mint, if improved then c.up else c.down, if improved then Notable else Urgent,
             Figure(c.before.value), Figure(c.after.value), Some(c.analyst))]
  }

  function Dimensions(previous: TokenState, current: TokenState): (r: seq<Event>)
    ensures Plain(r, current.mint)
  {
    var checks := Checks(previous, current);
    Dimension(current.mint, checks[0]) + Dimension(current.mint, checks[1]) + Dimension(current.mint, checks[2])
  }

  /** The events of some checks, in their order. */
  function EventsOf(mint: string, checks: seq<Check>): seq<Event> {
    if checks == [] then [] else EventsOf(mint, checks[..|checks| - 1]) + Dimension(mint, checks[|checks| - 1])
  }

  lemma {:induction false} EventsOfThree(mint: string, checks: seq<Check>)
    requires |checks| == 3
    ensures EventsOf(mint, checks) == Dimension(mint, checks[0]) + Dimension(mint, checks[1])
            + Dimension(mint, checks[2])
  {
    var two := checks[..2];
    assert two[..1][..0] == [];
    assert EventsOf(mint, two[..1]) == Dimension(mint, checks[0]);
    assert EventsOf(mint, two) == Dimension(mint, checks[0]) + Dimension(mint, checks[1]);
  }

  /** The loop that builds the dimension events. */
  method BuildDimensions(previous: TokenState, current: TokenState) returns (events: seq<Event>)
    ensures events == Dimensions(previous, current)
  {
    var checks := Checks(previous, current);
    events := [];
    for k := 0 to |checks|
      invariant events == EventsOf(current.mint, checks[..k])
    {
      var c := checks[k];
      assert checks[..k + 1][..k] == checks[..k];
      assert EventsOf(current.mint, checks[..k + 1]) == events + Dimension(current.mint, c);
      if c.before.None? || c.after.None? { continue; }
      var delta := c.after.value - c.before.value;
      if Abs(delta) < MATERIAL_DIMENSION_DELTA { continue; }
      var improved := delta > 0.0;
      events := events + [Event(current.mint, if improved then c.up else c.down, if improved then Notable else Urgent,
                                Figure(c.before.value), Figure(c.after.value), Some(c.analyst))];
    }
    assert checks[..|checks|] == checks;
    EventsOfThree(current.mint, checks);
  }

  function Confidence(previous: TokenState, current: TokenState): (r: seq<Event>)
    ensures Plain(r, current.mint)
  {
    var before, after := previous.confidence, current.confidence;
    if !Material(before, after, MATERIAL_CONFIDENCE_DELTA) then []
    else
      var increased := after.value - before.value > 0.0;
      [Event(current.mint, if increased then ConfidenceIncreased else ConfidenceDecreased, Info,
             Figure(before.value), Figure(after.value), None)]
  }

  function FirstSighting(current: TokenState): Event {
    var mission := if current.mission.Some? then OfMission(current.mission.value) else Absent;
    Event(current.mint, FirstAnalysed, Info, Absent, mission, None)
  }

  function OtherChanges(previous: TokenState, current: TokenState): (r: seq<Event>)
    ensures Plain(r, current.mint)
  {
    OtherChangesArePlain(previous, current);
    Priority(previous, current) + ExitWatch(previous, current) + Clone(previous, current)
    + Dimensions(previous, current) + Confidence(previous, current)
  }

  lemma {:induction false} OtherChangesArePlain(p: TokenState, c: TokenState)
    ensures Plain(Priority(p, c) + ExitWatch(p, c) + Clone(p, c) + Dimensions(p, c) + Confidence(p, c), c.mint)
  {
  }

  function Changes(previous: TokenState, current: TokenState): seq<Event> {
    Mission(previous, current) + OtherChanges(previous, current)
  }

  function Detect(previous: Option<TokenState>, current: TokenState): seq<Event> {
    if previous.None? then [FirstSighting(current)] else Changes(previous.value, current)
  }

  // --- Silence and symmetry -----------------------------------------------------------------------

  function Opposite(k: EventKind): (o: EventKind)
    ensures k != FirstAnalysed ==> o != k
  {
    match k
    case MissionPromoted => MissionDowngraded
    case MissionDowngraded => MissionPromoted
    case PriorityIncreased => PriorityDecreased
    case PriorityDecreased => PriorityIncreased
    case RiskIncreased => RiskResolved
    case RiskResolved => RiskIncreased
    case CloneDetected => CloneResolved
    case CloneResolved => CloneDetected
    case LiquidityImproved => LiquidityWeakened
    case LiquidityWeakened => LiquidityImproved
    case MomentumImproved => MomentumWeakened
    case MomentumWeakened => MomentumImproved
    case ExitWatchActivated => ExitWatchCleared
    case ExitWatchCleared => ExitWatchActivated
    case ConfidenceIncreased => ConfidenceDecreased
    case ConfidenceDecreased => ConfidenceIncreased
    case FirstAnalysed => FirstAnalysed
  }

  /** The same number of events in the same order, each of the opposite kind. */
  ghost predicate MirrorImages(xs: seq<Event>, ys: seq<Event>) {
    |xs| == |ys| && forall i | 0 <= i < |xs| :: ys[i].kind == Opposite(xs[i].kind)
  }

  lemma {:induction false} MirrorAppend(xs: seq<Event>, ys: seq<Event>, us: seq<Event>, vs: seq<Event>)
    requires |xs| == |ys| && |us| == |vs|
    ensures MirrorImages(xs + us, ys + vs) <==> MirrorImages(xs, ys) && MirrorImages(us, vs)
  {
    if MirrorImages(xs + us, ys + vs) {
      forall i | 0 <= i < |xs| ensures ys[i].kind == Opposite(xs[i].kind) {
        assert (xs + us)[i] == xs[i] && (ys + vs)[i] == ys[i];
      }
      forall i | 0 <= i < |us| ensures vs[i].kind == Opposite(us[i].kind) {
        assert (xs + us)[|xs| + i] == us[i] && (ys + vs)[|ys| + i] == vs[i];
      }
    }
  }

  /** Exit Watch moved between two levels that are neither clear nor elevated. */
  predicate SidewaysExit(p: TokenState, c: TokenState) {
    var before, after := ExitLevel(p), ExitLevel(c);
    before != after && before !in {"clear", "elevated"} && after !in {"clear", "elevated"}
  }

  lemma {:induction false} DetectorsMirror(p: TokenState, c: TokenState)
    ensures MirrorImages(Mission(p, c), Mission(c, p))
    ensures MirrorImages(Priority(p, c), Priority(c, p))
    ensures MirrorImages(Clone(p, c), Clone(c, p))
    ensures MirrorImages(Confidence(p, c), Confidence(c, p))
  {
  }

  lemma {:induction false} ExitWatchMirrorsExactly(p: TokenState, c: TokenState)
    ensures |ExitWatch(p, c)| == |ExitWatch(c, p)|
    ensures MirrorImages(ExitWatch(p, c), ExitWatch(c, p)) <==> !SidewaysExit(p, c)
  {
    if ExitLevel(p) != ExitLevel(c) {
      var there, back := ExitWatch(p, c)[0].kind, ExitWatch(c, p)[0].kind;
      assert MirrorImages(ExitWatch(p, c), ExitWatch(c, p)) <==> back == Opposite(there);
    }
  }

  lemma {:induction false} DimensionsMirror(p: TokenState, c: TokenState)
    ensures MirrorImages(Dimensions(p, c), Dimensions(c, p))
  {
    var xs, ys := Checks(p, c), Checks(c, p);
    MirrorAppend(Dimension(c.mint, xs[0]), Dimension(p.mint, ys[0]), Dimension(c.mint, xs[1]),
      Dimension(p.mint, ys[1]));
    MirrorAppend(Dimension(c.mint, xs[0]) + Dimension(c.mint, xs[1]),
      Dimension(p.mint, ys[0]) + Dimension(p.mint, ys[1]),
                 Dimension(c.mint, xs[2]), Dimension(p.mint, ys[2]));
  }

  /** Undoing a change reports it undone, event for event, exactly when Exit Watch did not move sideways. */
  lemma {:induction false} DetectIsMirrorSymmetricExactly(p: TokenState, c: TokenState)
    ensures MirrorImages(Detect(Some(p), c), Detect(Some(c), p)) <==> !SidewaysExit(p, c)
  {
    DetectorsMirror(p, c);
    ExitWatchMirrorsExactly(p, c);
    DimensionsMirror(p, c);
    var m, m' := Mission(p, c), Mission(c, p);
    var r, r' := Priority(p, c), Priority(c, p);
    var e, e' := ExitWatch(p, c), ExitWatch(c, p);
    var k, k' := Clone(p, c), Clone(c, p);
    var d, d' := Dimensions(p, c), Dimensions(c, p);
    var f, f' := Confidence(p, c), Confidence(c, p);
    MirrorAppend(r, r', e, e');
    MirrorAppend(r + e, r' + e', k, k');
    MirrorAppend(r + e + k, r' + e' + k', d, d');
    MirrorAppend(r + e + k + d, r' + e' + k' + d', f, f');
    MirrorAppend(m, m', r + e + k + d + f, r' + e' + k' + d' + f');
  }

  /** Nothing is reported when nothing the detector reads has changed. */
  lemma {:induction false} DetectIsSilentOnEqualStates(s: TokenState)
    ensures Detect(Some(s), s) == []
  {
  }

  // --- One event of a kind --------------------------------------------------------------------------

  ghost predicate DistinctKinds(events: seq<Event>) {
    forall i, j | 0 <= i < j < |events| :: events[i].kind != events[j].kind
  }

  /** Exit Watch and the risk score report risk moving the same way. */
  predicate RiskSaidTwice(p: TokenState, c: TokenState) {
    var before, after := ExitLevel(p), ExitLevel(c);
    && before != after && before != "clear" && after != "clear"
    && Material(p.risk, c.risk, MATERIAL_DIMENSION_DELTA)
    && (after == "elevated" <==> c.risk.value < p.risk.value)
  }

  ghost function Kinds(events: seq<Event>): set<EventKind> {
    set i | 0 <= i < |events| :: events[i].kind
  }

  lemma {:induction false} DistinctAppend(xs: seq<Event>, ys: seq<Event>)
    ensures DistinctKinds(xs + ys) <==> DistinctKinds(xs) && DistinctKinds(ys) && Kinds(xs) !! Kinds(ys)
    ensures Kinds(xs + ys) == Kinds(xs) + Kinds(ys)
  {
    var zs := xs + ys;
    assert forall i | 0 <= i < |xs| :: zs[i] == xs[i];
    assert forall i | 0 <= i < |ys| :: zs[|xs| + i] == ys[i];
    if DistinctKinds(zs) {
      forall i, j | 0 <= i < |xs| && 0 <= j < |ys| ensures xs[i].kind != ys[j].kind {
        assert zs[i].kind != zs[|xs| + j].kind;
      }
      forall i, j | 0 <= i < j < |ys| ensures ys[i].kind != ys[j].kind {
        assert zs[|xs| + i].kind != zs[|xs| + j].kind;
      }
      forall i, j | 0 <= i < j < |xs| ensures xs[i].kind != xs[j].kind {
        assert zs[i].kind != zs[j].kind;
      }
    }
    if DistinctKinds(xs) && DistinctKinds(ys) && Kinds(xs) !! Kinds(ys) {
      forall i, j | 0 <= i < j < |zs| ensures zs[i].kind != zs[j].kind {
        if i < |xs| <= j {
          assert xs[i].kind in Kinds(xs) && ys[j - |xs|].kind in Kinds(ys);
        }
      }
    }
    forall k | k in Kinds(xs) + Kinds(ys) ensures k in Kinds(zs) {
      if k in Kinds(xs) {
        var i :| 0 <= i < |xs| && xs[i].kind == k;
        assert zs[i].kind == k;
      } else {
        var i :| 0 <= i < |ys| && ys[i].kind == k;
        assert zs[|xs| + i].kind == k;
      }
    }
  }

  lemma {:induction false} DetectorKinds(p: TokenState, c: TokenState)
    ensures Kinds(Mission(p, c)) <= {MissionPromoted, MissionDowngraded} && DistinctKinds(Mission(p, c))
    ensures Kinds(Priority(p, c)) <= {PriorityIncreased, PriorityDecreased} && DistinctKinds(Priority(p, c))
    ensures Kinds(ExitWatch(p, c)) <= {ExitWatchActivated, ExitWatchCleared, RiskIncreased, RiskResolved}
    ensures DistinctKinds(ExitWatch(p, c))
    ensures Kinds(Clone(p, c)) <= {CloneDetected, CloneResolved} && DistinctKinds(Clone(p, c))
    ensures Kinds(Confidence(p, c)) <= {ConfidenceIncreased, ConfidenceDecreased} && DistinctKinds(Confidence(p, c))
  {
  }

  lemma {:induction false} DimensionKinds(p: TokenState, c: TokenState)
    ensures DistinctKinds(Dimensions(p, c))
    ensures Kinds(Dimensions(p, c)) <= {LiquidityImproved, LiquidityWeakened, MomentumImproved, MomentumWeakened,
            RiskResolved, RiskIncreased}
    ensures forall k | k in {RiskResolved, RiskIncreased} :: k in Kinds(Dimensions(p, c)) <==>
            k in Kinds(Dimension(c.mint, Checks(p, c)[2]))
  {
    var xs := Checks(p, c);
    var a, b, r := Dimension(c.mint, xs[0]), Dimension(c.mint, xs[1]), Dimension(c.mint, xs[2]);
    assert Kinds(a) <= {LiquidityImproved, LiquidityWeakened};
    assert Kinds(b) <= {MomentumImproved, MomentumWeakened};
    assert Kinds(r) <= {RiskResolved, RiskIncreased};
    JoinThree(a, b, r);
  }

  lemma {:induction false} JoinThree(a: seq<Event>, b: seq<Event>, r: seq<Event>)
    requires |a| <= 1 && |b| <= 1 && |r| <= 1 && Kinds(a) !! Kinds(b) !! Kinds(r)
    ensures DistinctKinds(a + b + r) && Kinds(a + b + r) == Kinds(a) + Kinds(b) + Kinds(r)
  {
    DistinctAppend(a, b);
    DistinctAppend(a + b, r);
  }

  lemma {:induction false} RiskClash(p: TokenState, c: TokenState)
    ensures Kinds(ExitWatch(p, c)) !! Kinds(Dimension(c.mint, Checks(p, c)[2])) <==> !RiskSaidTwice(p, c)
  {
    var e, r := ExitWatch(p, c), Dimension(c.mint, Checks(p, c)[2]);
    assert Kinds(e) == if e == [] then {} else {e[0].kind};
    assert Kinds(r) == if r == [] then {} else {r[0].kind};
  }

  lemma {:induction false} FamiliesApart(m: set<EventKind>, r: set<EventKind>, e: set<EventKind>, k: set<EventKind>,
                                         d: set<EventKind>, f: set<EventKind>)
    requires m <= {MissionPromoted, MissionDowngraded} && r <= {PriorityIncreased, PriorityDecreased}
    requires e <= {ExitWatchActivated, ExitWatchCleared, RiskIncreased, RiskResolved}
    requires k <= {CloneDetected, CloneResolved} && f <= {ConfidenceIncreased, ConfidenceDecreased}
    requires d <= {LiquidityImproved, LiquidityWeakened, MomentumImproved, MomentumWeakened, RiskResolved,
             RiskIncreased}
    ensures m !! r !! (e + d) !! k !! f
  {
  }

  lemma {:induction false} DistinctJoin(m: seq<Event>, r: seq<Event>, e: seq<Event>, k: seq<Event>, d: seq<Event>,
                                        f: seq<Event>)
    requires DistinctKinds(m) && DistinctKinds(r) && DistinctKinds(e) && DistinctKinds(k) && DistinctKinds(d)
             && DistinctKinds(f)
    requires Kinds(m) !! Kinds(r) !! (Kinds(e) + Kinds(d)) !! Kinds(k) !! Kinds(f)
    ensures DistinctKinds(m + (r + e + k + d + f)) <==> Kinds(e) !! Kinds(d)
  {
    DistinctAppend(r, e);
    DistinctAppend(r + e, k);
    DistinctAppend(r + e + k, d);
    DistinctAppend(r + e + k + d, f);
    DistinctAppend(m, r + e + k + d + f);
  }

  /** One observation yields at most one event of each kind exactly when the two risk readings do not agree out loud. */
  lemma {:induction false} KindsAreDistinctExactly(p: TokenState, c: TokenState)
    ensures DistinctKinds(Detect(Some(p), c)) <==> !RiskSaidTwice(p, c)
  {
    DetectorKinds(p, c);
    DimensionKinds(p, c);
    var m, r, e, k, d, f := Mission(p, c), Priority(p, c), ExitWatch(p, c), Clone(p, c), Dimensions(p, c),
      Confidence(p, c);
    RiskClash(p, c);
    FamiliesApart(Kinds(m), Kinds(r), Kinds(e), Kinds(k), Kinds(d), Kinds(f));
    DistinctJoin(m, r, e, k, d, f);
    assert Detect(Some(p), c) == m + (r + e + k + d + f);
  }
}
