/** What the log says of a change, told from the two states: which kinds appear, when, how loudly, and with what. */
module DetectorFacts {
  import opened Wrappers
  import opened Detector

  /** Missions from the worst to the best, and priorities from the least to the most urgent. */
  const MISSIONS: seq<MissionState> := [LostContact, ReEntry, Recon, HoldingPattern, LaunchWindow, Orbit, Ascent]
  const PRIORITIES: seq<ResearchPriority> := [Low, Medium, High, Critical]

  ghost predicate BetterMission(a: MissionState, b: MissionState) {
    exists i, j | 0 <= i < j < |MISSIONS| :: MISSIONS[i] == a && MISSIONS[j] == b
  }

  ghost predicate MoreUrgent(a: ResearchPriority, b: ResearchPriority) {
    exists i, j | 0 <= i < j < |PRIORITIES| :: PRIORITIES[i] == a && PRIORITIES[j] == b
  }

  function PlaceOfMission(m: MissionState): (i: nat)
    ensures i < |MISSIONS| && MISSIONS[i] == m
  {
    match m
    case LostContact => 0 case ReEntry => 1 case Recon => 2 case HoldingPattern => 3
    case LaunchWindow => 4 case Orbit => 5 case Ascent => 6
  }

  lemma {:induction false} RankIsPlace(a: MissionState, b: MissionState)
    ensures MissionRank(a) < MissionRank(b) <==> BetterMission(a, b)
  {
    var i, j := PlaceOfMission(a), PlaceOfMission(b);
    assert i < j ==> MISSIONS[i] == a && MISSIONS[j] == b;
  }

  function PlaceOfPriority(p: ResearchPriority): (i: nat)
    ensures i < |PRIORITIES| && PRIORITIES[i] == p
  {
    match p
    case Low => 0 case Medium => 1 case High => 2 case Critical => 3
  }

  lemma {:induction false} PriorityRankIsPlace(a: ResearchPriority, b: ResearchPriority)
    ensures PriorityRank(a) < PriorityRank(b) <==> MoreUrgent(a, b)
  {
    var i, j := PlaceOfPriority(a), PlaceOfPriority(b);
    assert i < j ==> PRIORITIES[i] == a && PRIORITIES[j] == b;
  }

  // --- The first event ----------------------------------------------------------------------------

  /** A first sighting is one event and nothing else. */
  lemma {:induction false} FirstSightingIsAllThereIs(c: TokenState)
    ensures var mission := if c.mission.Some? then OfMission(c.mission.value) else Absent;
            Detect(None, c) == [Event(c.mint, FirstAnalysed, EventSeverity.Info, Absent, mission, None)]
  {
  }

  /** Between two known, different missions the first event is a notable promotion exactly when the new one is the
      better, and an urgent downgrade otherwise; it names both. */
  lemma {:induction false} MissionComesFirst(p: TokenState, c: TokenState)
    requires p.mission.Some? && c.mission.Some? && p.mission != c.mission
    ensures Detect(Some(p), c) != []
    ensures var e := Detect(Some(p), c)[0];
            && e.mint == c.mint && e.analyst == Some("lifecycle")
            && e.previous == OfMission(p.mission.value) && e.current == OfMission(c.mission.value)
            && (e.kind == MissionPromoted && e.severity == Notable <==> BetterMission(p.mission.value, c.mission.value))
            && (e.kind == MissionDowngraded && e.severity == Urgent <==>
              !BetterMission(p.mission.value, c.mission.value))
  {
    RankIsPlace(p.mission.value, c.mission.value);
  }

  // --- Which kinds appear ---------------------------------------------------------------------------

  /** A figure known on both sides that rose, or fell, by at least so much. */
  predicate Rose(before: Option<real>, after: Option<real>, least: real) {
    before.Some? && after.Some? && after.value - before.value >= least
  }

  predicate Fell(before: Option<real>, after: Option<real>, least: real) {
    before.Some? && after.Some? && before.value - after.value >= least
  }

  /** The level a missing or empty text stands for. */
  function LevelOr(s: Option<string>, none: string): string {
    if s.None? || s.value == "" then none else s.value
  }

  /** When a change between two analysed states is told under this kind. */
  ghost predicate ToldAs(p: TokenState, c: TokenState, k: EventKind) {
    var exit0, exit1 := LevelOr(p.exitSeverity, "clear"), LevelOr(c.exitSeverity, "clear");
    var clone0, clone1 := LevelOr(p.cloneRisk, "none"), LevelOr(c.cloneRisk, "none");
    var serious := {"moderate", "high"};
    var sideways := exit0 != exit1 && exit0 != "clear" && exit1 != "clear";
    match k
    case FirstAnalysed => false
    case MissionPromoted => p.mission.Some? && c.mission.Some? && BetterMission(p.mission.value, c.mission.value)
    case MissionDowngraded => p.mission.Some? && c.mission.Some? && BetterMission(c.mission.value, p.mission.value)
    case PriorityIncreased => p.priority.Some? && c.priority.Some? && MoreUrgent(p.priority.value, c.priority.value)
    case PriorityDecreased => p.priority.Some? && c.priority.Some? && MoreUrgent(c.priority.value, p.priority.value)
    case ExitWatchActivated => exit0 == "clear" && exit1 != "clear"
    case ExitWatchCleared => exit0 != "clear" && exit1 == "clear"
    case CloneDetected => clone0 !in serious && clone1 in serious
    case CloneResolved => clone0 in serious && clone1 !in serious
    case LiquidityImproved => Rose(p.liquidity, c.liquidity, 15.0)
    case LiquidityWeakened => Fell(p.liquidity, c.liquidity, 15.0)
    case MomentumImproved => Rose(p.momentum, c.momentum, 15.0)
    case MomentumWeakened => Fell(p.momentum, c.momentum, 15.0)
    case RiskResolved => Rose(p.risk, c.risk, 15.0) || (sideways && exit1 != "elevated")
    case RiskIncreased => Fell(p.risk, c.risk, 15.0) || (sideways && exit1 == "elevated")
    case ConfidenceIncreased => Rose(p.confidence, c.confidence, 10.0)
    case ConfidenceDecreased => Fell(p.confidence, c.confidence, 10.0)
  }

  ghost predicate Has(events: seq<Event>, k: EventKind) {
    exists i | 0 <= i < |events| :: events[i].kind == k
  }

  lemma {:induction false} HasAppend(xs: seq<Event>, ys: seq<Event>, k: EventKind)
    ensures Has(xs + ys, k) <==> Has(xs, k) || Has(ys, k)
  {
    if Has(xs, k) {
      var i :| 0 <= i < |xs| && xs[i].kind == k;
      assert (xs + ys)[i].kind == k;
    }
    if Has(ys, k) {
      var i :| 0 <= i < |ys| && ys[i].kind == k;
      assert (xs + ys)[|xs| + i].kind == k;
    }
  }

  lemma {:induction false} HasOne(e: Event, k: EventKind)
    ensures Has([e], k) <==> e.kind == k
  {
    assert [e][0] == e;
  }

  lemma {:induction false} HasParts(p: TokenState, c: TokenState, k: EventKind)
    ensures Has(Detect(Some(p), c), k) <==>
            || Has(Mission(p, c), k) || Has(Priority(p, c), k) || Has(ExitWatch(p, c), k) || Has(Clone(p, c), k)
            || Has(Dimensions(p, c), k) || Has(Confidence(p, c), k)
  {
    HasAppend(Mission(p, c), OtherChanges(p, c), k);
    HasAppend(Priority(p, c) + ExitWatch(p, c) + Clone(p, c) + Dimensions(p, c), Confidence(p, c), k);
    HasAppend(Priority(p, c) + ExitWatch(p, c) + Clone(p, c), Dimensions(p, c), k);
    HasAppend(Priority(p, c) + ExitWatch(p, c), Clone(p, c), k);
    HasAppend(Priority(p, c), ExitWatch(p, c), k);
  }

  lemma {:induction false} MissionTold(p: TokenState, c: TokenState, k: EventKind)
    ensures Has(Mission(p, c), k) <==>
            && p.mission.Some? && c.mission.Some?
            && ((k == MissionPromoted && BetterMission(p.mission.value, c.mission.value))
              || (k == MissionDowngraded && BetterMission(c.mission.value, p.mission.value)))
  {
    if p.mission.Some? && c.mission.Some? {
      RankIsPlace(p.mission.value, c.mission.value);
      RankIsPlace(c.mission.value, p.mission.value);
      assert MissionRank(p.mission.value) == MissionRank(c.mission.value) ==> p.mission == c.mission;
    }
    if Mission(p, c) != [] { HasOne(Mission(p, c)[0], k); }
  }

  lemma {:induction false} PriorityTold(p: TokenState, c: TokenState, k: EventKind)
    ensures Has(Priority(p, c), k) <==>
            && p.priority.Some? && c.priority.Some?
            && ((k == PriorityIncreased && MoreUrgent(p.priority.value, c.priority.value))
              || (k == PriorityDecreased && MoreUrgent(c.priority.value, p.priority.value)))
  {
    if p.priority.Some? && c.priority.Some? {
      PriorityRankIsPlace(p.priority.value, c.priority.value);
      PriorityRankIsPlace(c.priority.value, p.priority.value);
    }
    if Priority(p, c) != [] { HasOne(Priority(p, c)[0], k); }
  }

  lemma {:induction false} DimensionTold(mint: string, check: Check, k: EventKind)
    requires check.up != check.down
    ensures Has(Dimension(mint, check), k) <==>
            (k == check.up && Rose(check.before, check.after, 15.0))
              || (k == check.down && Fell(check.before, check.after, 15.0))
  {
    if Dimension(mint, check) != [] { HasOne(Dimension(mint, check)[0], k); }
  }

  lemma {:induction false} DimensionsTold(p: TokenState, c: TokenState, k: EventKind)
    ensures Has(Dimensions(p, c), k) <==>
            || (k == LiquidityImproved && Rose(p.liquidity, c.liquidity, 15.0))
            || (k == LiquidityWeakened && Fell(p.liquidity, c.liquidity, 15.0))
            || (k == MomentumImproved && Rose(p.momentum, c.momentum, 15.0))
            || (k == MomentumWeakened && Fell(p.momentum, c.momentum, 15.0))
            || (k == RiskResolved && Rose(p.risk, c.risk, 15.0))
            || (k == RiskIncreased && Fell(p.risk, c.risk, 15.0))
  {
    var checks := Checks(p, c);
    DimensionTold(c.mint, checks[0], k);
    DimensionTold(c.mint, checks[1], k);
    DimensionTold(c.mint, checks[2], k);
    HasAppend(Dimension(c.mint, checks[0]), Dimension(c.mint, checks[1]), k);
    HasAppend(Dimension(c.mint, checks[0]) + Dimension(c.mint, checks[1]), Dimension(c.mint, checks[2]), k);
  }

  lemma {:induction false} ExitTold(p: TokenState, c: TokenState, k: EventKind)
    ensures var exit0, exit1 := LevelOr(p.exitSeverity, "clear"), LevelOr(c.exitSeverity, "clear");
            Has(ExitWatch(p, c), k) <==>
            || (k == ExitWatchActivated && exit0 == "clear" && exit1 != "clear")
            || (k == ExitWatchCleared && exit0 != "clear" && exit1 == "clear")
            || (k == RiskIncreased && exit0 != exit1 && exit0 != "clear" && exit1 == "elevated")
            || (k == RiskResolved && exit0 != exit1 && exit0 != "clear" && exit1 != "clear" && exit1 != "elevated")
  {
    if ExitWatch(p, c) != [] { HasOne(ExitWatch(p, c)[0], k); }
  }

  lemma {:induction false} CloneTold(p: TokenState, c: TokenState, k: EventKind)
    ensures var clone0, clone1 := LevelOr(p.cloneRisk, "none"), LevelOr(c.cloneRisk, "none");
            var serious := {"moderate", "high"};
            Has(Clone(p, c), k) <==>
            || (k == CloneDetected && clone0 !in serious && clone1 in serious)
            || (k == CloneResolved && clone0 in serious && clone1 !in serious)
  {
    if Clone(p, c) != [] { HasOne(Clone(p, c)[0], k); }
  }

  lemma {:induction false} ConfidenceTold(p: TokenState, c: TokenState, k: EventKind)
    ensures Has(Confidence(p, c), k) <==>
            || (k == ConfidenceIncreased && Rose(p.confidence, c.confidence, 10.0))
            || (k == ConfidenceDecreased && Fell(p.confidence, c.confidence, 10.0))
  {
    if Confidence(p, c) != [] { HasOne(Confidence(p, c)[0], k); }
  }

  /** A kind appears in the diff of two analysed states exactly when that is what happened. */
  lemma {:induction false} KindAppearsExactly(p: TokenState, c: TokenState, k: EventKind)
    ensures Has(Detect(Some(p), c), k) <==> ToldAs(p, c, k)
  {
    HasParts(p, c, k);
    MissionTold(p, c, k);
    PriorityTold(p, c, k);
    ExitTold(p, c, k);
    CloneTold(p, c, k);
    DimensionsTold(p, c, k);
    ConfidenceTold(p, c, k);
    match k
    case FirstAnalysed =>
    case MissionPromoted | MissionDowngraded | PriorityIncreased | PriorityDecreased =>
    case ExitWatchActivated | ExitWatchCleared | CloneDetected | CloneResolved =>
    case RiskResolved | RiskIncreased =>
    case LiquidityImproved | LiquidityWeakened | MomentumImproved | MomentumWeakened =>
    case ConfidenceIncreased | ConfidenceDecreased =>
  }

  // --- How loudly, and with what --------------------------------------------------------------------

  function TextOf(s: Option<string>, none: string): Value {
    Text(LevelOr(s, none))
  }

  /** The two sides of a dimension that changed. */
  ghost predicate Shows(e: Event, before: Option<real>, after: Option<real>, analyst: string) {
    && before.Some? && after.Some? && e.analyst == Some(analyst)
    && e.previous == Figure(before.value) && e.current == Figure(after.value)
  }

  /** What an event of a diff may say, by its kind. */
  ghost predicate Tells(p: TokenState, c: TokenState, e: Event) {
    e.mint == c.mint &&
    match e.kind
    case FirstAnalysed => false
    case MissionPromoted => e.severity == Notable && e.analyst == Some("lifecycle")
    case MissionDowngraded => e.severity == Urgent && e.analyst == Some("lifecycle")
    case PriorityIncreased =>
      && e.severity == (if c.priority == Some(Critical) then Urgent else Notable) && e.analyst == Some("research")
      && p.priority.Some? && c.priority.Some?
      && e.previous == OfPriority(p.priority.value) && e.current == OfPriority(c.priority.value)
    case PriorityDecreased =>
      && e.severity == EventSeverity.Info && e.analyst == Some("research") && p.priority.Some? && c.priority.Some?
      && e.previous == OfPriority(p.priority.value) && e.current == OfPriority(c.priority.value)
    case ExitWatchActivated => e.severity == Urgent && ShowsExit(p, c, e)
    case ExitWatchCleared => e.severity == Notable && ShowsExit(p, c, e)
    case CloneDetected => e.severity == Urgent && ShowsClone(p, c, e)
    case CloneResolved => e.severity == EventSeverity.Info && ShowsClone(p, c, e)
    case LiquidityImproved => e.severity == Notable && Shows(e, p.liquidity, c.liquidity, "liquidity")
    case LiquidityWeakened => e.severity == Urgent && Shows(e, p.liquidity, c.liquidity, "liquidity")
    case MomentumImproved => e.severity == Notable && Shows(e, p.momentum, c.momentum, "momentum")
    case MomentumWeakened => e.severity == Urgent && Shows(e, p.momentum, c.momentum, "momentum")
    case RiskResolved => e.severity == Notable && (Shows(e, p.risk, c.risk, "risk") || ShowsExit(p, c, e))
    case RiskIncreased =>
      (e.severity == Urgent && Shows(e, p.risk, c.risk, "risk")) || (e.severity == Notable && ShowsExit(p, c, e))
    case ConfidenceIncreased => e.severity == EventSeverity.Info && ShowsConfidence(p, c, e)
    case ConfidenceDecreased => e.severity == EventSeverity.Info && ShowsConfidence(p, c, e)
  }

  ghost predicate ShowsExit(p: TokenState, c: TokenState, e: Event) {
    && e.analyst == Some("risk")
    && e.previous == TextOf(p.exitSeverity, "clear") && e.current == TextOf(c.exitSeverity, "clear")
  }

  ghost predicate ShowsClone(p: TokenState, c: TokenState, e: Event) {
    && e.analyst == Some("risk")
    && e.previous == TextOf(p.cloneRisk, "none") && e.current == TextOf(c.cloneRisk, "none")
  }

  ghost predicate ShowsConfidence(p: TokenState, c: TokenState, e: Event) {
    && e.analyst == None && p.confidence.Some? && c.confidence.Some?
    && e.previous == Figure(p.confidence.value) && e.current == Figure(c.confidence.value)
  }

  ghost predicate AllTell(p: TokenState, c: TokenState, events: seq<Event>) {
    forall i | 0 <= i < |events| :: Tells(p, c, events[i])
  }

  lemma {:induction false} TellAppend(p: TokenState, c: TokenState, xs: seq<Event>, ys: seq<Event>)
    requires AllTell(p, c, xs) && AllTell(p, c, ys)
    ensures AllTell(p, c, xs + ys)
  {
  }

  lemma {:induction false} PartsTell(p: TokenState, c: TokenState)
    ensures AllTell(p, c, Mission(p, c)) && AllTell(p, c, Priority(p, c))
    ensures AllTell(p, c, ExitWatch(p, c)) && AllTell(p, c, Clone(p, c)) && AllTell(p, c, Confidence(p, c))
  {
  }

  lemma {:induction false} DimensionsTell(p: TokenState, c: TokenState)
    ensures AllTell(p, c, Dimensions(p, c))
  {
    var checks := Checks(p, c);
    assert AllTell(p, c, Dimension(c.mint, checks[0]));
    assert AllTell(p, c, Dimension(c.mint, checks[1]));
    assert AllTell(p, c, Dimension(c.mint, checks[2]));
    TellAppend(p, c, Dimension(c.mint, checks[0]), Dimension(c.mint, checks[1]));
    TellAppend(p, c, Dimension(c.mint, checks[0]) + Dimension(c.mint, checks[1]), Dimension(c.mint, checks[2]));
  }

  /** Every event of a diff carries the severity its kind has, and the values it went from and to. */
  lemma {:induction false} EventsTellWhatHappened(p: TokenState, c: TokenState)
    ensures AllTell(p, c, Detect(Some(p), c))
  {
    PartsTell(p, c);
    DimensionsTell(p, c);
    TellAppend(p, c, Priority(p, c), ExitWatch(p, c));
    TellAppend(p, c, Priority(p, c) + ExitWatch(p, c), Clone(p, c));
    TellAppend(p, c, Priority(p, c) + ExitWatch(p, c) + Clone(p, c), Dimensions(p, c));
    TellAppend(p, c, Priority(p, c) + ExitWatch(p, c) + Clone(p, c) + Dimensions(p, c), Confidence(p, c));
    TellAppend(p, c, Mission(p, c), OtherChanges(p, c));
  }
}
