/** The event log as a record: what a token's mission events say is exactly what was committed about it. */
module EventHistory {
  import opened Wrappers
  import opened Detector
  import opened EventCycle

  function RowsOf(log: seq<Row>, mint: string): seq<Row> {
    if log == [] then []
    else
      var last := log[|log| - 1];
      RowsOf(log[..|log| - 1], mint) + (if last.event.mint == mint then [last] else [])
  }

  function Stamp(events: seq<Event>, at: int): seq<Row> {
    seq(|events|, i requires 0 <= i < |events| => Row(events[i], at))
  }

  /** The mission path a token's rows spell out, or Broken when they do not chain. */
  datatype Tracked = Untracked | At(path: seq<MissionState>) | Broken

  function Follow(t: Tracked, e: Event): Tracked {
    match e.kind
    case FirstAnalysed =>
      if t.Untracked? && e.current.OfMission? then At([e.current.mission]) else Broken
    case MissionPromoted => FollowMission(t, e)
    case MissionDowngraded => FollowMission(t, e)
    case _ => t
  }

  function FollowMission(t: Tracked, e: Event): Tracked {
    if t.At? && t.path != [] && e.previous == OfMission(t.path[|t.path| - 1]) && e.current.OfMission?
    then At(t.path + [e.current.mission]) else Broken
  }

  function Replay(t: Tracked, rows: seq<Row>): Tracked {
    if rows == [] then t else Follow(Replay(t, rows[..|rows| - 1]), rows[|rows| - 1].event)
  }

  /** The history without immediate repetitions. */
  function Destutter(h: seq<MissionState>): (d: seq<MissionState>)
    ensures h != [] ==> d != [] && d[|d| - 1] == h[|h| - 1]
  {
    if |h| <= 1 then h
    else if h[|h| - 1] == h[|h| - 2] then Destutter(h[..|h| - 1])
    else Destutter(h[..|h| - 1]) + [h[|h| - 1]]
  }

  // --- Plumbing -------------------------------------------------------------------------------------

  lemma {:induction false} RowsOfAppend(xs: seq<Row>, ys: seq<Row>, mint: string)
    ensures RowsOf(xs + ys, mint) == RowsOf(xs, mint) + RowsOf(ys, mint)
  {
    if ys == [] {
      assert xs + ys == xs;
    } else {
      assert (xs + ys)[..|xs + ys| - 1] == xs + ys[..|ys| - 1];
      RowsOfAppend(xs, ys[..|ys| - 1], mint);
    }
  }

  lemma {:induction false} RowsOfStamp(events: seq<Event>, at: int, owner: string, mint: string)
    requires forall i | 0 <= i < |events| :: events[i].mint == owner
    ensures RowsOf(Stamp(events, at), mint) == if mint == owner then Stamp(events, at) else []
  {
    if events != [] {
      var rows := Stamp(events, at);
      assert rows[..|rows| - 1] == Stamp(events[..|events| - 1], at);
      RowsOfStamp(events[..|events| - 1], at, owner, mint);
    }
  }

  lemma {:induction false} ReplayAppend(t: Tracked, xs: seq<Row>, ys: seq<Row>)
    ensures Replay(t, xs + ys) == Replay(Replay(t, xs), ys)
  {
    if ys == [] {
      assert xs + ys == xs;
    } else {
      assert (xs + ys)[..|xs + ys| - 1] == xs + ys[..|ys| - 1];
      ReplayAppend(t, xs, ys[..|ys| - 1]);
    }
  }

  lemma {:induction false} RecordedHasRow(log: seq<Row>, mint: string, kind: EventKind, at: int)
    requires Recorded(log, mint, kind, at)
    ensures exists i | 0 <= i < |RowsOf(log, mint)| :: RowsOf(log, mint)[i].at == at
  {
    var i :| 0 <= i < |log| && log[i].event.mint == mint && log[i].event.kind == kind && log[i].at == at;
    var front, rows := log[..|log| - 1], RowsOf(log, mint);
    if i == |log| - 1 {
      assert rows[|rows| - 1] == log[i];
    } else {
      assert front[i] == log[i];
      RecordedHasRow(front, mint, kind, at);
      var k :| 0 <= k < |RowsOf(front, mint)| && RowsOf(front, mint)[k].at == at;
      assert rows[k] == RowsOf(front, mint)[k];
    }
  }

  /** Events of distinct kinds under a fresh key all land, in order. */
  lemma {:induction false} RecordLands(log: seq<Row>, events: seq<Event>, at: int, mint: string)
    requires DistinctKinds(events)
    requires forall i | 0 <= i < |events| :: events[i].mint == mint && !Recorded(log, mint, events[i].kind, at)
    ensures Record(log, events, at) == log + Stamp(events, at)
    decreases |events|
  {
    if events != [] {
      var log', rest := log + [Row(events[0], at)], events[1..];
      forall i | 0 <= i < |rest| ensures rest[i].mint == mint && !Recorded(log', mint, rest[i].kind, at) {
        assert rest[i] == events[i + 1];
        assert !Recorded(log, mint, events[i + 1].kind, at);
        assert events[0].kind != events[i + 1].kind;
      }
      assert DistinctKinds(rest) by {
        forall i, j | 0 <= i < j < |rest| ensures rest[i].kind != rest[j].kind {
          assert rest[i] == events[i + 1] && rest[j] == events[j + 1];
        }
      }
      RecordLands(log', rest, at, mint);
      assert log' + Stamp(rest, at) == log + Stamp(events, at);
    }
  }

  // --- What one observation adds --------------------------------------------------------------------

  /** Every state the orchestrator caches has a mission and no exit severity. */
  ghost predicate Cached(cache: map<string, TokenState>) {
    forall m | m in cache :: cache[m].mission.Some? && cache[m].exitSeverity.None?
  }

  function MissionIn(cache: map<string, TokenState>, mint: string): Option<MissionState> {
    if mint in cache then cache[mint].mission else None
  }

  lemma {:induction false} NeutralRowsChangeNothing(t: Tracked, events: seq<Event>, at: int)
    requires forall i | 0 <= i < |events| :: Neutral(events[i].kind)
    ensures Replay(t, Stamp(events, at)) == t
  {
    if events != [] {
      var rows := Stamp(events, at);
      assert rows[..|rows| - 1] == Stamp(events[..|events| - 1], at);
      NeutralRowsChangeNothing(t, events[..|events| - 1], at);
    }
  }

  lemma {:induction false} DetectedEvents(p: Option<TokenState>, c: TokenState)
    requires p.Some? ==> p.value.exitSeverity == c.exitSeverity
    ensures forall i | 0 <= i < |Detect(p, c)| :: Detect(p, c)[i].mint == c.mint
    ensures DistinctKinds(Detect(p, c))
  {
    if p.Some? {
      KindsAreDistinctExactly(p.value, c);
    }
  }

  /** Where a path goes on an observation of `to` by a cycle that had `from` cached. */
  function Moved(t: Tracked, from: Option<MissionState>, to: MissionState): Tracked {
    if from.None? then (if t.Untracked? then At([to]) else Broken)
    else if from.value == to then t
    else if t.At? && t.path != [] && t.path[|t.path| - 1] == from.value then At(t.path + [to])
    else Broken
  }

  lemma {:induction false} ReplayOfSplit(t: Tracked, mission: seq<Event>, others: seq<Event>, mint: string, at: int)
    requires |mission| <= 1 && Plain(others, mint)
    ensures Replay(t, Stamp(mission + others, at)) == if mission == [] then t else Follow(t, mission[0])
  {
    assert Stamp(mission + others, at) == Stamp(mission, at) + Stamp(others, at);
    ReplayAppend(t, Stamp(mission, at), Stamp(others, at));
    NeutralRowsChangeNothing(Replay(t, Stamp(mission, at)), others, at);
    if mission != [] {
      assert mission == [mission[0]];
      ReplayOfOne(t, mission[0], at);
    }
  }

  lemma {:induction false} MissionMoves(t: Tracked, p: TokenState, c: TokenState)
    requires c.mission.Some? && p.mission.Some?
    ensures var m := Mission(p, c);
            |m| <= 1 && (if m == [] then t else Follow(t, m[0])) == Moved(t, p.mission, c.mission.value)
  {
  }

  /** Replaying one observation's events moves the path exactly by the mission change it saw. */
  lemma {:induction false} ReplayOfDetect(t: Tracked, p: Option<TokenState>, c: TokenState, at: int)
    requires c.mission.Some? && (p.Some? ==> p.value.mission.Some?)
    ensures Replay(t, Stamp(Detect(p, c), at)) == Moved(t, if p.None? then None else p.value.mission, c.mission.value)
  {
    if p.None? {
      ReplayOfOne(t, FirstSighting(c), at);
    } else {
      var mission, others := Mission(p.value, c), OtherChanges(p.value, c);
      assert Detect(p, c) == mission + others;
      MissionMoves(t, p.value, c);
      ReplayOfSplit(t, mission, others, c.mint, at);
    }
  }

  lemma {:induction false} ReplayOfOne(t: Tracked, e: Event, at: int)
    ensures Replay(t, Stamp([e], at)) == Follow(t, e)
  {
  }

  // --- What one cycle adds ----------------------------------------------------------------------------

  ghost predicate DistinctMints(mints: seq<string>) {
    forall i, j | 0 <= i < j < |mints| :: mints[i] != mints[j]
  }

  ghost predicate Before(log: seq<Row>, at: int) {
    forall i | 0 <= i < |log| :: log[i].at < at
  }

  /** The verdict a cycle's first n tokens gave for this mint, if any. */
  function VerdictFor(c: Cycle, n: nat, mint: string): Option<Verdict>
    requires n <= |c.mints|
  {
    if mint in c.mints[..n] && c.observe(mint).Seen? then Some(c.observe(mint).verdict) else None
  }

  lemma {:induction false} RowsAreBefore(log: seq<Row>, mint: string, at: int)
    requires Before(log, at)
    ensures Before(RowsOf(log, mint), at)
  {
    if log != [] {
      RowsAreBefore(log[..|log| - 1], mint, at);
    }
  }

  /** One token's events land whole and leave every other token's rows alone. */
  lemma {:induction false} RecordForToken(log: seq<Row>, events: seq<Event>, at: int, owner: string, mint: string)
    requires DistinctKinds(events) && forall i | 0 <= i < |events| :: events[i].mint == owner
    requires Before(RowsOf(log, owner), at)
    ensures RowsOf(Record(log, events, at), mint) == RowsOf(log, mint)
            + (if mint == owner then Stamp(events, at) else [])
    ensures |Record(log, events, at)| == |log| + |events|
  {
    forall i | 0 <= i < |events| ensures !Recorded(log, owner, events[i].kind, at) {
      if Recorded(log, owner, events[i].kind, at) {
        RecordedHasRow(log, owner, events[i].kind, at);
        assert false;
      }
    }
    RecordLands(log, events, at, owner);
    RowsOfAppend(log, Stamp(events, at), mint);
    RowsOfStamp(events, at, owner, mint);
  }

  function EventsFor(seen: map<string, TokenState>, c: Cycle, n: nat, mint: string): seq<Event>
    requires n <= |c.mints|
  {
    var v := VerdictFor(c, n, mint);
    if v.None? then [] else Detect(Previous(seen, mint), StateOf(mint, v.value))
  }

  /** The rows the first `n` tokens of a batch add for this one. */
  function NewRows(seen: map<string, TokenState>, c: Cycle, n: nat, mint: string): seq<Row>
    requires n <= |c.mints|
  {
    Stamp(EventsFor(seen, c, n, mint), c.at)
  }

  /** The rows a token's own turn adds. */
  function OwnRows(seen: map<string, TokenState>, c: Cycle, x: string): seq<Row> {
    if c.observe(x).Seen? then Stamp(Detect(Previous(seen, x), StateOf(x, c.observe(x).verdict)), c.at) else []
  }

  lemma {:induction false} NewRowsNext(seen: map<string, TokenState>, c: Cycle, n: nat, mint: string)
    requires 0 < n <= |c.mints| && DistinctMints(c.mints)
    ensures var x := c.mints[n - 1];
            && NewRows(seen, c, n, mint) == NewRows(seen, c, n - 1, mint)
              + (if mint == x then OwnRows(seen, c, x) else [])
            && NewRows(seen, c, n - 1, x) == []
  {
    var x := c.mints[n - 1];
    assert c.mints[..n] == c.mints[..n - 1] + [x];
    assert x !in c.mints[..n - 1];
    assert Stamp([], c.at) == [];
  }

  lemma {:induction false} ScanOneRecords(r: Scan, seen: map<string, TokenState>, c: Cycle, x: string, mint: string)
    requires Cached(seen) && Before(RowsOf(r.log, x), c.at)
    ensures var s := ScanOne(r, seen, c, x);
            && |s.log| - |r.log| == s.proposed - r.proposed
            && RowsOf(s.log, mint) == RowsOf(r.log, mint) + (if mint == x then OwnRows(seen, c, x) else [])
  {
    if c.observe(x).Seen? {
      var p, state := Previous(seen, x), StateOf(x, c.observe(x).verdict);
      DetectedEvents(p, state);
      RecordForToken(r.log, Detect(p, state), c.at, x, mint);
    }
  }

  /** Each token of the batch has its own events, all of them, and no other token's rows are touched. */
  ghost predicate Scanned(log: seq<Row>, seen: map<string, TokenState>, c: Cycle, n: nat, r: Scan)
    requires n <= |c.mints|
  {
    && (forall mint :: RowsOf(r.log, mint) == RowsOf(log, mint) + NewRows(seen, c, n, mint))
    && |r.log| == |log| + r.proposed
  }

  lemma {:induction false} ScanIsPerToken(log: seq<Row>, seen: map<string, TokenState>, c: Cycle, n: nat)
    requires Cached(seen) && Before(log, c.at) && DistinctMints(c.mints) && n <= |c.mints|
    ensures Scanned(log, seen, c, n, ScanBatch(log, seen, c, n))
    decreases n
  {
    if n == 0 {
      forall mint ensures RowsOf(log, mint) + NewRows(seen, c, 0, mint) == RowsOf(log, mint) {
        NoRowsYet(log, seen, c, mint);
      }
    } else {
      ScanIsPerToken(log, seen, c, n - 1);
      ScanStep(log, ScanBatch(log, seen, c, n - 1), seen, c, n);
    }
  }

  lemma {:induction false} NoRowsYet(log: seq<Row>, seen: map<string, TokenState>, c: Cycle, mint: string)
    ensures RowsOf(log, mint) + NewRows(seen, c, 0, mint) == RowsOf(log, mint)
  {
  }

  lemma {:induction false} ScanStep(log: seq<Row>, r: Scan, seen: map<string, TokenState>, c: Cycle, n: nat)
    requires Cached(seen) && Before(log, c.at) && DistinctMints(c.mints) && 0 < n <= |c.mints|
    requires Scanned(log, seen, c, n - 1, r)
    ensures Scanned(log, seen, c, n, ScanOne(r, seen, c, c.mints[n - 1]))
  {
    var x := c.mints[n - 1];
    NewRowsNext(seen, c, n, x);
    RowsAreBefore(log, x, c.at);
    assert RowsOf(log, x) + [] == RowsOf(log, x);
    ScanOneRecords(r, seen, c, x, x);
    forall mint ensures RowsOf(ScanOne(r, seen, c, x).log, mint) == RowsOf(log, mint) + NewRows(seen, c, n, mint) {
      NewRowsNext(seen, c, n, mint);
      ScanOneRecords(r, seen, c, x, mint);
      RegroupRows(RowsOf(log, mint), NewRows(seen, c, n - 1, mint), if mint == x then OwnRows(seen, c, x) else []);
    }
  }

  lemma {:induction false} RegroupRows(xs: seq<Row>, ys: seq<Row>, zs: seq<Row>)
    ensures (xs + ys) + zs == xs + (ys + zs)
  {
  }

  lemma {:induction false} ScanCaches(s: Store, seen: map<string, TokenState>, c: Cycle, n: nat, mint: string)
    requires DistinctMints(c.mints) && n <= |c.mints|
    ensures var v := VerdictFor(c, n, mint);
            Previous(Remember(s.cache, ScanBatch(s.log, seen, c, n).pending), mint) ==
            if v.None? then Previous(s.cache, mint) else Some(StateOf(mint, v.value))
    decreases n
  {
    if n > 0 {
      var x := c.mints[n - 1];
      var r0, r := ScanBatch(s.log, seen, c, n - 1), ScanBatch(s.log, seen, c, n);
      assert c.mints[..n] == c.mints[..n - 1] + [x];
      ScanCaches(s, seen, c, n - 1, mint);
      if c.observe(x).Seen? {
        assert r.pending[..|r.pending| - 1] == r0.pending;
      }
    }
  }

  // --- The record matches the history -------------------------------------------------------------------

  /** The token's rows replay to the history of its committed observations, and the cache stands at its end. */
  ghost predicate Faithful(s: Store, mint: string, h: seq<MissionState>) {
    && Replay(Untracked, RowsOf(s.log, mint)) == PathOf(h)
    && MissionIn(s.cache, mint) == LastOf(h)
    && (mint in s.cache <==> h != [])
  }

  /** The missions a cycle committed about this token. */
  function ObservedIn(c: Cycle, mint: string): seq<MissionState> {
    var v := VerdictFor(c, |c.mints|, mint);
    if c.commits && v.Some? then [v.value.mission] else []
  }

  function Observed(cycles: seq<Cycle>, mint: string): seq<MissionState> {
    if cycles == [] then [] else Observed(cycles[..|cycles| - 1], mint) + ObservedIn(cycles[|cycles| - 1], mint)
  }

  function PathOf(h: seq<MissionState>): Tracked {
    if h == [] then Untracked else At(Destutter(h))
  }

  function LastOf(h: seq<MissionState>): Option<MissionState> {
    if h == [] then None else Some(h[|h| - 1])
  }

  /** A path keeps telling the history exactly when the move starts from where the history stands. */
  lemma {:induction false} MoveTellsTheHistoryExactly(h: seq<MissionState>, from: Option<MissionState>,
                                                      to: MissionState)
    ensures Moved(PathOf(h), from, to) == PathOf(h + [to]) <==> from == LastOf(h)
  {
  }

  /** What a token's rows replay to after a cycle that had read `seen`. */
  lemma {:induction false} ReplayAfterCycle(s: Store, seen: map<string, TokenState>, c: Cycle, mint: string)
    requires Cached(seen) && Before(s.log, c.at) && DistinctMints(c.mints)
    requires VerdictFor(c, |c.mints|, mint).Some?
    ensures Replay(Untracked, RowsOf(CommitFrom(s, seen, c).log, mint)) ==
            Moved(Replay(Untracked, RowsOf(s.log, mint)), MissionIn(seen, mint),
              VerdictFor(c, |c.mints|, mint).value.mission)
  {
    var state := StateOf(mint, VerdictFor(c, |c.mints|, mint).value);
    ScanIsPerToken(s.log, seen, c, |c.mints|);
    ReplayAppend(Untracked, RowsOf(s.log, mint), NewRows(seen, c, |c.mints|, mint));
    ReplayOfDetect(Replay(Untracked, RowsOf(s.log, mint)), Previous(seen, mint), state, c.at);
  }

  /** A cycle that read `seen` keeps a token's record faithful exactly when the mission it read is the one
      committed when it writes: any older read loses a change or breaks the chain. */
  lemma {:induction false} FaithfulExactlyWhenReadIsCurrent(s: Store, seen: map<string, TokenState>, c: Cycle,
                                                            mint: string, h: seq<MissionState>)
    requires Faithful(s, mint, h) && Cached(seen) && Before(s.log, c.at) && DistinctMints(c.mints)
    requires VerdictFor(c, |c.mints|, mint).Some?
    ensures Faithful(CommitFrom(s, seen, c), mint, h + [VerdictFor(c, |c.mints|, mint).value.mission]) <==>
            MissionIn(seen, mint) == MissionIn(s.cache, mint)
  {
    ReplayAfterCycle(s, seen, c, mint);
    ScanCaches(s, seen, c, |c.mints|, mint);
    MoveTellsTheHistoryExactly(h, MissionIn(seen, mint), VerdictFor(c, |c.mints|, mint).value.mission);
  }

  lemma {:induction false} ScanKeepsTimes(log: seq<Row>, seen: map<string, TokenState>, c: Cycle, n: nat)
    requires n <= |c.mints| && forall i | 0 <= i < |log| :: log[i].at <= c.at
    ensures forall i | 0 <= i < |ScanBatch(log, seen, c, n).log| :: ScanBatch(log, seen, c, n).log[i].at <= c.at
  {
    if n > 0 {
      ScanKeepsTimes(log, seen, c, n - 1);
      var r0 := ScanBatch(log, seen, c, n - 1);
      if c.observe(c.mints[n - 1]).Seen? {
        var x := c.mints[n - 1];
        RecordKeepsTimes(r0.log, Detect(Previous(seen, x), StateOf(x, c.observe(x).verdict)), c.at);
      }
    }
  }

  lemma {:induction false} RecordKeepsTimes(log: seq<Row>, events: seq<Event>, at: int)
    requires forall i | 0 <= i < |log| :: log[i].at <= at
    ensures forall i | 0 <= i < |Record(log, events, at)| :: Record(log, events, at)[i].at <= at
    decreases |events|
  {
    if events != [] {
      var e := events[0];
      RecordKeepsTimes(if Recorded(log, e.mint, e.kind, at) then log else log + [Row(e, at)], events[1..], at);
    }
  }

  ghost predicate WellRun(cycles: seq<Cycle>) {
    && (forall i, j | 0 <= i < j < |cycles| :: cycles[i].at < cycles[j].at)
    && forall i | 0 <= i < |cycles| :: DistinctMints(cycles[i].mints)
  }

  lemma {:induction false} CachedAfterCommit(s: Store, seen: map<string, TokenState>, c: Cycle)
    requires Cached(s.cache) && DistinctMints(c.mints)
    ensures Cached(CommitFrom(s, seen, c).cache)
  {
    var cache := CommitFrom(s, seen, c).cache;
    forall m | m in cache ensures cache[m].mission.Some? && cache[m].exitSeverity.None? {
      ScanCaches(s, seen, c, |c.mints|, m);
      assert Previous(cache, m) == Some(cache[m]);
    }
  }

  lemma {:induction false} RunIsTimely(s: Store, cycles: seq<Cycle>, at: int)
    requires Cached(s.cache) && Before(s.log, at) && forall i | 0 <= i < |cycles| :: Before(s.log, cycles[i].at)
    requires WellRun(cycles) && forall i | 0 <= i < |cycles| :: cycles[i].at < at
    ensures Before(RunAll(s, cycles).log, at) && Cached(RunAll(s, cycles).cache)
  {
    if cycles != [] {
      var front, c := cycles[..|cycles| - 1], cycles[|cycles| - 1];
      RunIsTimely(s, front, c.at);
      var t := RunAll(s, front);
      CachedAfterCommit(t, t.cache, c);
      ScanKeepsTimes(t.log, t.cache, c, |c.mints|);
    }
  }

  /** Over every run of cycles, with any of them dying before its commit and any token failing in any of them, each
      token's mission events replay from its first sighting to exactly the destuttered history of what was committed,
      each event starting where the last one ended, and the cache holds its end. */
  lemma {:induction false} LogIsTheHistory(cycles: seq<Cycle>, mint: string)
    requires WellRun(cycles)
    ensures Faithful(RunAll(EMPTY, cycles), mint, Observed(cycles, mint))
  {
    if cycles != [] {
      var front, c := cycles[..|cycles| - 1], cycles[|cycles| - 1];
      LogIsTheHistory(front, mint);
      RunIsTimely(EMPTY, front, c.at);
      var s, h := RunAll(EMPTY, front), Observed(front, mint);
      if c.commits {
        ScanIsPerToken(s.log, s.cache, c, |c.mints|);
        ScanCaches(s, s.cache, c, |c.mints|, mint);
        if VerdictFor(c, |c.mints|, mint).Some? {
          FaithfulExactlyWhenReadIsCurrent(s, s.cache, c, mint, h);
        } else {
          assert h + [] == h;
          assert RowsOf(s.log, mint) + [] == RowsOf(s.log, mint);
          assert Previous(RunOne(s, c).cache, mint) == Previous(s.cache, mint);
        }
      } else {
        assert h + [] == h;
      }
    }
  }

  /** In such a run the deduplication key never drops an event: everything proposed lands. */
  lemma {:induction false} NoEventIsSkipped(cycles: seq<Cycle>, c: Cycle)
    requires WellRun(cycles + [c])
    ensures var s := RunAll(EMPTY, cycles);
            var r := ScanBatch(s.log, s.cache, c, |c.mints|);
            |r.log| == |s.log| + r.proposed
  {
    assert forall i | 0 <= i < |cycles| :: (cycles + [c])[i] == cycles[i];
    assert (cycles + [c])[|cycles|] == c;
    assert WellRun(cycles);
    RunIsTimely(EMPTY, cycles, c.at);
    ScanIsPerToken(RunAll(EMPTY, cycles).log, RunAll(EMPTY, cycles).cache, c, |c.mints|);
  }

  // --- Overlapping cycles ---------------------------------------------------------------------------------

  /** The rows of a cached token are broken, or end somewhere else than the cache stands. */
  ghost predicate Lost(s: Store, mint: string) {
    var t, m := Replay(Untracked, RowsOf(s.log, mint)), MissionIn(s.cache, mint);
    m.Some? && (t == Broken || (t.At? && t.path != [] && t.path[|t.path| - 1] != m.value))
  }

  lemma {:induction false} LostIsNotFaithful(s: Store, mint: string, h: seq<MissionState>)
    requires Lost(s, mint)
    ensures !Faithful(s, mint, h)
  {
  }

  /** A cycle that says nothing of a token leaves its rows and its cached state alone. */
  lemma {:induction false} UnseenIsUntouched(s: Store, c: Cycle, mint: string)
    requires Cached(s.cache) && Before(s.log, c.at) && DistinctMints(c.mints) && VerdictFor(c, |c.mints|, mint).None?
    ensures var t := CommitFrom(s, s.cache, c);
            RowsOf(t.log, mint) == RowsOf(s.log, mint) && Previous(t.cache, mint) == Previous(s.cache, mint)
  {
    ScanCaches(s, s.cache, c, |c.mints|, mint);
    ScanIsPerToken(s.log, s.cache, c, |c.mints|);
    assert RowsOf(s.log, mint) + [] == RowsOf(s.log, mint);
  }

  /** Rows that do not end at `m` do not end at `to` after a move from `m`. */
  lemma {:induction false} LostMoves(t: Tracked, m: MissionState, to: MissionState)
    requires t == Broken || (t.At? && t.path != [] && t.path[|t.path| - 1] != m)
    ensures var r := Moved(t, Some(m), to); r == Broken || (r.At? && r.path != [] && r.path[|r.path| - 1] != to)
  {
  }

  lemma {:induction false} LostStaysLost(s: Store, c: Cycle, mint: string)
    requires Lost(s, mint) && Cached(s.cache) && Before(s.log, c.at) && DistinctMints(c.mints)
    ensures Lost(RunOne(s, c), mint)
  {
    if c.commits {
      var v := VerdictFor(c, |c.mints|, mint);
      if v.Some? {
        ScanCaches(s, s.cache, c, |c.mints|, mint);
        ReplayAfterCycle(s, s.cache, c, mint);
        LostMoves(Replay(Untracked, RowsOf(s.log, mint)), MissionIn(s.cache, mint).value, v.value.mission);
      } else {
        UnseenIsUntouched(s, c, mint);
      }
    }
  }

  /** No run of cycles, one at a time, repairs a lost record. */
  lemma {:induction false} LostForGood(s: Store, cycles: seq<Cycle>, mint: string)
    requires Lost(s, mint) && Cached(s.cache) && WellRun(cycles)
    requires forall i | 0 <= i < |cycles| :: Before(s.log, cycles[i].at)
    ensures Lost(RunAll(s, cycles), mint)
  {
    if cycles != [] {
      var front, c := cycles[..|cycles| - 1], cycles[|cycles| - 1];
      LostForGood(s, front, mint);
      RunIsTimely(s, front, c.at);
      LostStaysLost(RunAll(s, front), c, mint);
    }
  }

  lemma {:induction false} CommitKeepsTimes(s: Store, seen: map<string, TokenState>, c: Cycle, at: int)
    requires Before(s.log, c.at) && c.at < at
    ensures Before(CommitFrom(s, seen, c).log, at)
  {
    ScanKeepsTimes(s.log, seen, c, |c.mints|);
  }

  /** A commit from a read that is not where the history stands loses the record. */
  lemma {:induction false} StaleCommitLoses(s: Store, seen: map<string, TokenState>, c: Cycle, mint: string,
                                            h: seq<MissionState>)
    requires Faithful(s, mint, h) && h != [] && Cached(seen) && Before(s.log, c.at) && DistinctMints(c.mints)
    requires VerdictFor(c, |c.mints|, mint).Some? && MissionIn(seen, mint) != MissionIn(s.cache, mint)
    ensures Lost(CommitFrom(s, seen, c), mint)
  {
    ReplayAfterCycle(s, seen, c, mint);
    ScanCaches(s, seen, c, |c.mints|, mint);
  }

  /** And no later run of cycles makes that token's rows tell any history at all. */
  lemma {:induction false} StaleCommitIsNeverRepaired(s: Store, seen: map<string, TokenState>, c: Cycle, mint: string,
                                   h: seq<MissionState>, later: seq<Cycle>, g: seq<MissionState>)
    requires Faithful(s, mint, h) && h != [] && Cached(s.cache) && Cached(seen) && Before(s.log, c.at)
             && DistinctMints(c.mints)
    requires VerdictFor(c, |c.mints|, mint).Some? && MissionIn(seen, mint) != MissionIn(s.cache, mint)
    requires WellRun(later) && forall i | 0 <= i < |later| :: c.at < later[i].at
    ensures !Faithful(RunAll(CommitFrom(s, seen, c), later), mint, g)
  {
    var t := CommitFrom(s, seen, c);
    StaleCommitLoses(s, seen, c, mint, h);
    CachedAfterCommit(s, seen, c);
    forall i | 0 <= i < |later| ensures Before(t.log, later[i].at) {
      CommitKeepsTimes(s, seen, c, later[i].at);
    }
    LostForGood(t, later, mint);
    LostIsNotFaithful(RunAll(t, later), mint, g);
  }

  /** Nothing serialises two cycles: if both read the cache before either commits, and the first moves a token the
      second also observes, that token's record is wrong from then on. */
  lemma {:induction false} OverlappingCyclesCorruptTheRecord(s: Store, first: Cycle, second: Cycle, mint: string,
                                          h: seq<MissionState>, later: seq<Cycle>, g: seq<MissionState>)
    requires Faithful(s, mint, h) && Cached(s.cache) && Before(s.log, first.at) && first.at < second.at
    requires DistinctMints(first.mints) && DistinctMints(second.mints)
    requires VerdictFor(first, |first.mints|, mint).Some? && VerdictFor(second, |second.mints|, mint).Some?
    requires MissionIn(s.cache, mint) != Some(VerdictFor(first, |first.mints|, mint).value.mission)
    requires WellRun(later) && forall i | 0 <= i < |later| :: second.at < later[i].at
    ensures var s1 := CommitFrom(s, s.cache, first);
            && Faithful(s1, mint, h + [VerdictFor(first, |first.mints|, mint).value.mission])
            && !Faithful(RunAll(CommitFrom(s1, s.cache, second), later), mint, g)
  {
    var s1, h1 := CommitFrom(s, s.cache, first), h + [VerdictFor(first, |first.mints|, mint).value.mission];
    FaithfulExactlyWhenReadIsCurrent(s, s.cache, first, mint, h);
    CachedAfterCommit(s, s.cache, first);
    CommitKeepsTimes(s, s.cache, first, second.at);
    StaleCommitIsNeverRepaired(s1, s.cache, second, mint, h1, later, g);
  }

  /** Two overlapping first sightings of one token, from an empty store, are enough. */
  lemma {:induction false} TwoFirstSightings(v: Verdict, w: Verdict, later: seq<Cycle>, g: seq<MissionState>)
    requires WellRun(later) && forall i | 0 <= i < |later| :: 1 < later[i].at
    ensures var first, second := Cycle(["A"], _ => Seen(v), 0, true), Cycle(["A"], _ => Seen(w), 1, true);
            !Faithful(RunAll(CommitFrom(CommitFrom(EMPTY, map[], first), map[], second), later), "A", g)
  {
    var first, second := Cycle(["A"], _ => Seen(v), 0, true), Cycle(["A"], _ => Seen(w), 1, true);
    assert first.mints[0] in first.mints[..1] && second.mints[0] in second.mints[..1];
    OverlappingCyclesCorruptTheRecord(EMPTY, first, second, "A", [], later, g);
  }
}
