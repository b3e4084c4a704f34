/** Event cycles: diff each token against its cached state, append what changed to the log, and move the
    cache forward, all in one commit. */
module EventCycle {
  import opened Wrappers
  import opened Detector

  /** A logged event; (mint, kind, at) is unique. */
  datatype Row = Row(event: Event, at: int)

  datatype Store = Store(log: seq<Row>, cache: map<string, TokenState>)

  /** What the analysts concluded about a token they could read. */
  datatype Verdict = Verdict(
    mission: MissionState, priority: ResearchPriority, score: Option<real>, confidence: Option<real>,
    liquidity: Option<real>, momentum: Option<real>, risk: Option<real>, cloneRisk: Option<string>,
      warningCodes: set<string>)

  /** Observing a token raises, finds no market history, or yields a verdict. */
  datatype Observation = Failed | NoHistory | Seen(verdict: Verdict)

  /** The state `_observe` builds: it never carries an exit severity. */
  function StateOf(mint: string, v: Verdict): TokenState {
    TokenState(mint, Some(v.mission), Some(v.priority), v.score, v.confidence, v.liquidity, v.momentum, v.risk,
               v.cloneRisk, None, v.warningCodes)
  }

  function Previous(cache: map<string, TokenState>, mint: string): Option<TokenState> {
    if mint in cache then Some(cache[mint]) else None
  }

  // --- The repository -----------------------------------------------------------------------------

  predicate Recorded(log: seq<Row>, mint: string, kind: EventKind, at: int) {
    exists i | 0 <= i < |log| :: log[i].event.mint == mint && log[i].event.kind == kind && log[i].at == at
  }

  /** Append, ignoring any event whose key is already there. */
  function Record(log: seq<Row>, events: seq<Event>, at: int): seq<Row>
    decreases |events|
  {
    if events == [] then log
    else
      var e := events[0];
      Record(if Recorded(log, e.mint, e.kind, at) then log else log + [Row(e, at)], events[1..], at)
  }

  function Remember(cache: map<string, TokenState>, states: seq<TokenState>): map<string, TokenState> {
    if states == [] then cache
    else
      var last := states[|states| - 1];
      Remember(cache, states[..|states| - 1])[last.mint := last]
  }

  // --- One cycle ------------------------------------------------------------------------------------

  datatype Cycle = Cycle(mints: seq<string>, observe: string -> Observation, at: int, commits: bool)

  /** What the loop over the batch has written so far. */
  datatype Scan = Scan(log: seq<Row>, pending: seq<TokenState>, proposed: nat)

  function ScanOne(r: Scan, seen: map<string, TokenState>, c: Cycle, mint: string): Scan {
    match c.observe(mint)
    case Failed => r
    case NoHistory => r
    case Seen(v) =>
      var state := StateOf(mint, v);
      var events := Detect(Previous(seen, mint), state);
      Scan(Record(r.log, events, c.at), r.pending + [state], r.proposed + |events|)
  }

  function ScanBatch(log: seq<Row>, seen: map<string, TokenState>, c: Cycle, n: nat): Scan
    requires n <= |c.mints|
  {
    if n == 0 then Scan(log, [], 0) else ScanOne(ScanBatch(log, seen, c, n - 1), seen, c, c.mints[n - 1])
  }

  /** How many of the first `n` tokens differ from what was cached of them. */
  function ChangedIn(seen: map<string, TokenState>, c: Cycle, n: nat): nat
    requires n <= |c.mints|
  {
    if n == 0 then 0
    else
      var x := c.mints[n - 1];
      ChangedIn(seen, c, n - 1)
      + if c.observe(x).Seen? && Detect(Previous(seen, x), StateOf(x, c.observe(x).verdict)) != [] then 1 else 0
  }

  /** How many of the first `n` tokens were read and had been cached, or had not. */
  function ReadIn(seen: map<string, TokenState>, c: Cycle, n: nat, cached: bool): nat
    requires n <= |c.mints|
  {
    if n == 0 then 0
    else
      var x := c.mints[n - 1];
      ReadIn(seen, c, n - 1, cached) + if c.observe(x).Seen? && (x in seen <==> cached) then 1 else 0
  }

  /** How many of the first `n` tokens raised. */
  function FailedIn(c: Cycle, n: nat): nat
    requires n <= |c.mints|
  {
    if n == 0 then 0 else FailedIn(c, n - 1) + if c.observe(c.mints[n - 1]).Failed? then 1 else 0
  }

  /** The state kept of an observation is the verdict, field by field, without an exit severity. */
  lemma {:induction false} StateKeepsTheVerdict(mint: string, v: Verdict)
    ensures var s := StateOf(mint, v);
            && s.mint == mint && s.mission == Some(v.mission) && s.priority == Some(v.priority)
            && s.score == v.score && s.confidence == v.confidence && s.liquidity == v.liquidity
            && s.momentum == v.momentum && s.risk == v.risk && s.cloneRisk == v.cloneRisk
            && s.exitSeverity == None && s.warningCodes == v.warningCodes
  {
  }

  /** A committed cycle whose cached states were read as `seen`. */
  function CommitFrom(s: Store, seen: map<string, TokenState>, c: Cycle): Store {
    var r := ScanBatch(s.log, seen, c, |c.mints|);
    Store(r.log, Remember(s.cache, r.pending))
  }

  /** A cycle alone: it reads the cache it will overwrite, and lands whole or not at all. */
  function RunOne(s: Store, c: Cycle): Store {
    if c.commits then CommitFrom(s, s.cache, c) else s
  }

  function RunAll(s: Store, cycles: seq<Cycle>): Store {
    if cycles == [] then s else RunOne(RunAll(s, cycles[..|cycles| - 1]), cycles[|cycles| - 1])
  }

  const EMPTY: Store := Store([], map[])

  // --- The service --------------------------------------------------------------------------------------

  datatype Summary = Summary(analysed: nat, changed: nat, generated: nat, skipped: int, hits: nat, misses: nat,
                             failures: nat)

  class EventOrchestrator {
    var log: seq<Row>
    var cache: map<string, TokenState>

    ghost function View(): Store
      reads this
    {
      Store(log, cache)
    }

    constructor ()
      ensures View() == EMPTY
    {
      log, cache := [], map[];
    }

    /** Diff one token against its cached state and append what changed. */
    method DiffToken(r: Scan, c: Cycle, mint: string) returns (r': Scan, hit: bool)
      requires c.observe(mint).Seen?
      ensures r' == ScanOne(r, cache, c, mint)
      ensures |r'.pending| == |r.pending| + 1 && |r.log| <= |r'.log|
      ensures hit <==> mint in cache
    {
      var state := StateOf(mint, c.observe(mint).verdict);
      var before := Previous(cache, mint);
      hit := before.Some?;
      var events := Detect(before, state);
      RecordOnlyAppends(r.log, events, c.at);
      r' := Scan(Record(r.log, events, c.at), r.pending + [state], r.proposed + |events|);
    }

    /** Analyse, compare, record; events and cache land together at the end, unless the run dies first. */
    method RunCycle(c: Cycle) returns (summary: Summary)
      modifies this
      ensures View() == RunOne(old(View()), c)
      ensures var r := ScanBatch(old(log), old(cache), c, |c.mints|);
              && summary.analysed == summary.hits + summary.misses == |r.pending|
              && summary.generated + summary.skipped == r.proposed
              && |old(log)| + summary.generated == |r.log|
      ensures summary.changed == ChangedIn(old(cache), c, |c.mints|)
      ensures summary.hits == ReadIn(old(cache), c, |c.mints|, true)
      ensures summary.misses == ReadIn(old(cache), c, |c.mints|, false)
      ensures summary.failures == FailedIn(c, |c.mints|)
    {
      var r := Scan(log, [], 0);
      var changed: nat, generated: nat, hits: nat, misses: nat, failures: nat := 0, 0, 0, 0, 0;
      for k := 0 to |c.mints|
        invariant View() == old(View())
        invariant r == ScanBatch(log, cache, c, k)
        invariant hits + misses == |r.pending|
        invariant hits == ReadIn(cache, c, k, true) && misses == ReadIn(cache, c, k, false)
        invariant failures == FailedIn(c, k)
        invariant |r.log| == |log| + generated && changed == ChangedIn(cache, c, k)
      {
        var mint := c.mints[k];
        match c.observe(mint) {
          case Failed => failures := failures + 1;
          case NoHistory =>
          case Seen(_) =>
            var r', hit := DiffToken(r, c, mint);
            if hit { hits := hits + 1; } else { misses := misses + 1; }
            if r'.proposed > r.proposed { changed := changed + 1; }
            generated := generated + (|r'.log| - |r.log|);
            r := r';
        }
      }
      if c.commits {
        var states := cache;
        for k := 0 to |r.pending|
          invariant View() == old(View())
          invariant states == Remember(cache, r.pending[..k])
        {
          assert r.pending[..k + 1][..k] == r.pending[..k];
          states := states[r.pending[k].mint := r.pending[k]];
        }
        assert r.pending[..|r.pending|] == r.pending;
        log, cache := r.log, states;
      }
      summary := Summary(|r.pending|, changed, generated, r.proposed - generated, hits, misses, failures);
    }
  }

  lemma {:induction false} RecordOnlyAppends(log: seq<Row>, events: seq<Event>, at: int)
    ensures log <= Record(log, events, at) && |Record(log, events, at)| <= |log| + |events|
    decreases |events|
  {
    if events != [] {
      var e := events[0];
      RecordOnlyAppends(if Recorded(log, e.mint, e.kind, at) then log else log + [Row(e, at)], events[1..], at);
    }
  }
}
