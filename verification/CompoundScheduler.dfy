/** The beat: any number of workers try for one advisory lock, run a tick inside a transaction statement by
    statement, and commit, fail, or find the lock taken. */
module CompoundScheduler {
  import opened Wrappers
  import opened Compound
  import opened CompoundLedger

  // --- A tick, statement by statement ----------------------------------------------------------

  datatype Op = OpenTheCycle | TradeTheRule | TestTheTarget

  datatype Statement = Statement(wallet: nat, op: Op, session: Session)

  function Effect(w: Wallet, st: Statement): Wallet {
    match st.op
    case OpenTheCycle => WithOpenCycle(w)
    case TradeTheRule => Trade(w, st.session)
    case TestTheTarget => Bank(w, st.session)
  }

  function Phase(sessions: seq<Session>, op: Op): seq<Statement> {
    seq(|sessions|, i requires 0 <= i < |sessions| => Statement(i, op, sessions[i]))
  }

  /** The service's own order: every cycle is opened, then everything trades, then every target is tested. */
  function Program(sessions: seq<Session>): seq<Statement> {
    Phase(sessions, OpenTheCycle) + (Phase(sessions, TradeTheRule) + Phase(sessions, TestTheTarget))
  }

  function Apply(db: seq<Wallet>, st: Statement): (r: seq<Wallet>)
    ensures |r| == |db|
  {
    if st.wallet < |db| then db[st.wallet := Effect(db[st.wallet], st)] else db
  }

  function RunProgram(db: seq<Wallet>, todo: seq<Statement>): (r: seq<Wallet>)
    ensures |r| == |db|
    decreases |todo|
  {
    if todo == [] then db else RunProgram(Apply(db, todo[0]), todo[1..])
  }

  /** One tick on its own, wallet by wallet. */
  function TickAll(db: seq<Wallet>, sessions: seq<Session>): seq<Wallet>
    requires |sessions| == |db|
  {
    seq(|db|, i requires 0 <= i < |db| => Tick(db[i], sessions[i]))
  }

  lemma {:induction false} RunProgramAppend(db: seq<Wallet>, xs: seq<Statement>, ys: seq<Statement>)
    ensures RunProgram(db, xs + ys) == RunProgram(RunProgram(db, xs), ys)
    decreases |xs|
  {
    if xs == [] {
      assert xs + ys == ys;
    } else {
      assert (xs + ys)[0] == xs[0] && (xs + ys)[1..] == xs[1..] + ys;
      RunProgramAppend(Apply(db, xs[0]), xs[1..], ys);
    }
  }

  /** `after` is `before` with the operation done to every wallet from `k` on. */
  ghost predicate DoneFrom(before: seq<Wallet>, after: seq<Wallet>, sessions: seq<Session>, op: Op, k: nat)
    requires |sessions| == |before|
  {
    && |after| == |before|
    && forall i | 0 <= i < |before| ::
         after[i] == if i < k then before[i] else Effect(before[i], Statement(i, op, sessions[i]))
  }

  lemma {:induction false} DoneOneMore(db: seq<Wallet>, after: seq<Wallet>, sessions: seq<Session>, op: Op, k: nat)
    requires |sessions| == |db| && k < |db|
    requires DoneFrom(Apply(db, Statement(k, op, sessions[k])), after, sessions, op, k + 1)
    ensures DoneFrom(db, after, sessions, op, k)
  {
    var mid := Apply(db, Statement(k, op, sessions[k]));
    assert forall i | 0 <= i < |db| && i != k :: mid[i] == db[i];
  }

  /** A phase touches each wallet once, whatever the others are doing. */
  lemma {:induction false} PhaseIsPointwise(db: seq<Wallet>, sessions: seq<Session>, op: Op, k: nat)
    requires |sessions| == |db| && k <= |db|
    ensures DoneFrom(db, RunProgram(db, Phase(sessions, op)[k..]), sessions, op, k)
    decreases |db| - k
  {
    var todo := Phase(sessions, op)[k..];
    if k < |db| {
      var st := Statement(k, op, sessions[k]);
      assert todo[0] == st && todo[1..] == Phase(sessions, op)[k + 1..];
      PhaseIsPointwise(Apply(db, st), sessions, op, k + 1);
      DoneOneMore(db, RunProgram(db, todo), sessions, op, k);
    }
  }

  lemma {:induction false} ProgramIsTick(db: seq<Wallet>, sessions: seq<Session>)
    requires |sessions| == |db|
    ensures RunProgram(db, Program(sessions)) == TickAll(db, sessions)
  {
    var p1, p2, p3 := Phase(sessions, OpenTheCycle), Phase(sessions, TradeTheRule), Phase(sessions, TestTheTarget);
    assert p1[0..] == p1 && p2[0..] == p2 && p3[0..] == p3;
    RunProgramAppend(db, p1, p2 + p3);
    PhaseIsPointwise(db, sessions, OpenTheCycle, 0);
    var db1 := RunProgram(db, p1);
    RunProgramAppend(db1, p2, p3);
    PhaseIsPointwise(db1, sessions, TradeTheRule, 0);
    var db2 := RunProgram(db1, p2);
    PhaseIsPointwise(db2, sessions, TestTheTarget, 0);
  }

  // --- Workers -----------------------------------------------------------------------------------

  /** A worker's open transaction: what it has yet to do, and the rows it has written but not committed. */
  datatype Worker = Idle | Working(sessions: seq<Session>, todo: seq<Statement>, writes: map<nat, Wallet>)

  /** The database, the advisory lock, the workers, and the order in which ticks committed. */
  datatype System = System(db: seq<Wallet>, lock: Option<nat>, workers: map<nat, Worker>, committed: seq<seq<Session>>)

  datatype Event =
    | TryLock(worker: nat, sessions: seq<Session>)
    | Execute(worker: nat)
    | Commit(worker: nat)
    | Fail(worker: nat)

  function WorkerOf(sys: System, id: nat): Worker {
    if id in sys.workers then sys.workers[id] else Idle
  }

  /** What a transaction reads: its own writes over the rows committed by now. */
  function ViewOf(db: seq<Wallet>, writes: map<nat, Wallet>): (r: seq<Wallet>)
    ensures |r| == |db|
  {
    seq(|db|, i requires 0 <= i < |db| => if i in writes then writes[i] else db[i])
  }

  /** One step of one worker; a step the worker is in no position to take changes nothing. */
  function Next(sys: System, e: Event): System {
    var w := WorkerOf(sys, e.worker);
    match e
    case TryLock(id, sessions) =>
      if w.Working? || sys.lock.Some? || |sessions| != |sys.db| then sys
      else sys.(lock := Some(id), workers := sys.workers[id := Working(sessions, Program(sessions), map[])])
    case Execute(id) =>
      if w.Idle? || w.todo == [] then sys
      else
        var st := w.todo[0];
        var writes := if st.wallet >= |sys.db| then w.writes
                      else w.writes[st.wallet := Effect(ViewOf(sys.db, w.writes)[st.wallet], st)];
        sys.(workers := sys.workers[id := w.(todo := w.todo[1..], writes := writes)])
    case Commit(id) =>
      if w.Idle? || w.todo != [] then sys
      else System(ViewOf(sys.db, w.writes), None, sys.workers[id := Idle], sys.committed + [w.sessions])
    case Fail(id) =>
      if w.Idle? then sys else sys.(lock := None, workers := sys.workers[id := Idle])
  }

  function Interleave(sys: System, events: seq<Event>): System
    decreases |events|
  {
    if events == [] then sys else Interleave(Next(sys, events[0]), events[1..])
  }

  /** The committed ticks, one after another. */
  function Serial(db: seq<Wallet>, ticks: seq<seq<Session>>): (r: seq<Wallet>)
    requires forall k | 0 <= k < |ticks| :: |ticks[k]| == |db|
    ensures |r| == |db|
  {
    if ticks == [] then db
    else TickAll(Serial(db, ticks[..|ticks| - 1]), ticks[|ticks| - 1])
  }

  /** What a worker would still do to its view is its whole tick on the committed rows. */
  ghost predicate OnCourse(db: seq<Wallet>, w: Worker)
    requires w.Working?
  {
    |w.sessions| == |db| && RunProgram(ViewOf(db, w.writes), w.todo) == TickAll(db, w.sessions)
  }

  /** Only the lock's holder works, and it is on course. */
  ghost predicate Exclusive(sys: System) {
    forall id: nat | WorkerOf(sys, id).Working? :: sys.lock == Some(id) && OnCourse(sys.db, WorkerOf(sys, id))
  }

  ghost predicate Serialised(sys: System, start: seq<Wallet>) {
    && |sys.db| == |start|
    && (forall k | 0 <= k < |sys.committed| :: |sys.committed[k]| == |start|)
    && sys.db == Serial(start, sys.committed)
  }

  lemma {:induction false} StartsOnCourse(db: seq<Wallet>, sessions: seq<Session>)
    requires |sessions| == |db|
    ensures OnCourse(db, Working(sessions, Program(sessions), map[]))
  {
    ProgramIsTick(db, sessions);
    assert ViewOf(db, map[]) == db;
  }

  lemma {:induction false} StaysOnCourse(sys: System, id: nat)
    requires WorkerOf(sys, id).Working? && OnCourse(sys.db, WorkerOf(sys, id))
    ensures var w := WorkerOf(Next(sys, Execute(id)), id); w.Working? && OnCourse(sys.db, w)
  {
    var w := WorkerOf(sys, id);
    if w.todo != [] {
      var w' := WorkerOf(Next(sys, Execute(id)), id);
      assert ViewOf(sys.db, w'.writes) == Apply(ViewOf(sys.db, w.writes), w.todo[0]);
    }
  }

  lemma {:induction false} CommitIsOneTick(sys: System, id: nat, start: seq<Wallet>)
    requires Serialised(sys, start)
    requires WorkerOf(sys, id).Working? && WorkerOf(sys, id).todo == [] && OnCourse(sys.db, WorkerOf(sys, id))
    ensures Serialised(Next(sys, Commit(id)), start)
  {
  }

  lemma {:induction false} OneStep(sys: System, e: Event, start: seq<Wallet>)
    requires Exclusive(sys) && Serialised(sys, start)
    ensures Exclusive(Next(sys, e)) && Serialised(Next(sys, e), start)
    ensures Next(sys, e).db != sys.db ==> e.Commit? && |Next(sys, e).committed| == |sys.committed| + 1
  {
    var id, w, sys' := e.worker, WorkerOf(sys, e.worker), Next(sys, e);
    if sys' != sys {
      match e {
        case TryLock(_, sessions) => StartsOnCourse(sys.db, sessions);
        case Execute(_) => StaysOnCourse(sys, id);
        case Commit(_) => CommitIsOneTick(sys, id, start);
        case Fail(_) =>
      }
      forall other: nat | WorkerOf(sys', other).Working?
        ensures sys'.lock == Some(other) && OnCourse(sys'.db, WorkerOf(sys', other))
      {
        assert other != id ==> WorkerOf(sys, other).Working?;
      }
    }
  }

  /** For every interleaving of any number of workers, the database is what the committed ticks alone,
      run one after another in commit order, would have made it. */
  lemma {:induction false} EveryInterleavingIsSerial(sys: System, events: seq<Event>, start: seq<Wallet>)
    requires Exclusive(sys) && Serialised(sys, start)
    ensures Exclusive(Interleave(sys, events)) && Serialised(Interleave(sys, events), start)
    decreases |events|
  {
    if events != [] {
      OneStep(sys, events[0], start);
      EveryInterleavingIsSerial(Next(sys, events[0]), events[1..], start);
    }
  }

  lemma {:induction false} SerialTicksAreSafe(start: seq<Wallet>, ticks: seq<seq<Session>>)
    requires forall k | 0 <= k < |ticks| :: |ticks[k]| == |start|
    requires forall i | 0 <= i < |start| :: WalletOk(start[i])
    ensures forall i | 0 <= i < |start| :: WalletOk(Serial(start, ticks)[i])
    ensures forall i | 0 <= i < |start| :: LedgerExtends(start[i].cycles, Serial(start, ticks)[i].cycles)
  {
    if ticks != [] {
      var before := ticks[..|ticks| - 1];
      SerialTicksAreSafe(start, before);
      var db := Serial(start, before);
      forall i | 0 <= i < |start|
        ensures WalletOk(Serial(start, ticks)[i]) && LedgerExtends(start[i].cycles, Serial(start, ticks)[i].cycles)
      {
        TickIsSafe(db[i], ticks[|ticks| - 1][i]);
      }
    }
  }

  /** No interleaving can bank a cycle twice or break any account: every wallet's ledger stays gapless and balanced. */
  lemma {:induction false} NoInterleavingCorruptsALedger(n: nat, workers: map<nat, Worker>, events: seq<Event>)
    requires forall id | id in workers :: workers[id].Idle?
    ensures var sys := Interleave(System(seq(n, _ => FRESH), None, workers, []), events);
            |sys.db| == n && forall i | 0 <= i < n :: WalletOk(sys.db[i])
  {
    var start := seq(n, _ => FRESH);
    var sys := System(start, None, workers, []);
    EveryInterleavingIsSerial(sys, events, start);
    SerialTicksAreSafe(start, Interleave(sys, events).committed);
  }

  // --- What a commit is ---------------------------------------------------------------------------

  predicate Commits(sys: System, e: Event) {
    e.Commit? && WorkerOf(sys, e.worker).Working? && WorkerOf(sys, e.worker).todo == []
  }

  /** A worker that has done everything and commits publishes its whole tick, is recorded, and frees the lock; what
      it wrote was in nobody's sight before. */
  lemma {:induction false} CommitPublishesTheTick(sys: System, e: Event, start: seq<Wallet>)
    requires Exclusive(sys) && Serialised(sys, start) && Commits(sys, e)
    ensures var w, t := WorkerOf(sys, e.worker), Next(sys, e);
            && |w.sessions| == |sys.db| && t.db == TickAll(sys.db, w.sessions)
            && t.committed == sys.committed + [w.sessions] && t.lock.None? && WorkerOf(t, e.worker).Idle?
  {
  }

  /** Any other step publishes and records nothing. A failing worker frees the lock and forgets what it wrote. */
  lemma {:induction false} OnlyCommitsPublish(sys: System, e: Event)
    requires !Commits(sys, e)
    ensures Next(sys, e).db == sys.db && Next(sys, e).committed == sys.committed
    ensures e.Fail? && WorkerOf(sys, e.worker).Working? ==>
            Next(sys, e).lock.None? && WorkerOf(Next(sys, e), e.worker).Idle?
  {
  }

  /** The lock is granted to an idle worker exactly when nobody has it; a worker that finds it taken does nothing. */
  lemma {:induction false} LockIsGrantedWhenFree(sys: System, id: nat, sessions: seq<Session>)
    requires |sessions| == |sys.db| && WorkerOf(sys, id).Idle?
    ensures var t := Next(sys, TryLock(id, sessions));
            if sys.lock.None? then t.lock == Some(id) && WorkerOf(t, id) == Working(sessions, Program(sessions), map[])
            else t == sys
  {
  }

  /** The sessions of the workers that reached their commit, in the order they did. */
  function CommitsReached(sys: System, events: seq<Event>): seq<seq<Session>>
    decreases |events|
  {
    if events == [] then []
    else
      (if Commits(sys, events[0]) then [WorkerOf(sys, events[0].worker).sessions] else [])
      + CommitsReached(Next(sys, events[0]), events[1..])
  }

  /** Over every run the record is exactly who reached a commit, and the database is those ticks run one by one. */
  lemma {:induction false} RecordIsWhoCommitted(sys: System, events: seq<Event>, start: seq<Wallet>)
    requires Exclusive(sys) && Serialised(sys, start)
    ensures Interleave(sys, events).committed == sys.committed + CommitsReached(sys, events)
    ensures forall k | 0 <= k < |CommitsReached(sys, events)| :: |CommitsReached(sys, events)[k]| == |sys.db|
    decreases |events|
  {
    if events != [] {
      var t := Next(sys, events[0]);
      OneStep(sys, events[0], start);
      RecordIsWhoCommitted(t, events[1..], start);
      if Commits(sys, events[0]) {
        CommitPublishesTheTick(sys, events[0], start);
      } else {
        OnlyCommitsPublish(sys, events[0]);
      }
    }
  }

  // --- One worker on its own ------------------------------------------------------------------------

  function Executions(id: nat, n: nat): seq<Event> {
    seq(n, _ => Execute(id))
  }

  lemma {:induction false} ExecutesToTheEnd(sys: System, id: nat)
    requires WorkerOf(sys, id).Working? && OnCourse(sys.db, WorkerOf(sys, id))
    ensures var w := WorkerOf(sys, id);
            var t := Interleave(sys, Executions(id, |w.todo|));
            && t.db == sys.db && t.lock == sys.lock && t.committed == sys.committed
            && WorkerOf(t, id).Working? && WorkerOf(t, id).todo == [] && WorkerOf(t, id).sessions == w.sessions
            && OnCourse(t.db, WorkerOf(t, id))
    decreases |WorkerOf(sys, id).todo|
  {
    var w := WorkerOf(sys, id);
    if w.todo != [] {
      StaysOnCourse(sys, id);
      assert Executions(id, |w.todo|)[1..] == Executions(id, |w.todo| - 1);
      ExecutesToTheEnd(Next(sys, Execute(id)), id);
    }
  }

  lemma {:induction false} InterleaveAppend(sys: System, xs: seq<Event>, ys: seq<Event>)
    ensures Interleave(sys, xs + ys) == Interleave(Interleave(sys, xs), ys)
    decreases |xs|
  {
    if xs == [] {
      assert xs + ys == ys;
    } else {
      assert (xs + ys)[0] == xs[0] && (xs + ys)[1..] == xs[1..] + ys;
      InterleaveAppend(Next(sys, xs[0]), xs[1..], ys);
    }
  }

  lemma {:induction false} OneEvent(sys: System, e: Event)
    ensures Interleave(sys, [e]) == Next(sys, e)
  {
    assert [e][1..] == [];
  }

  /** A worker under way, left to itself, publishes what its statements add up to. */
  lemma {:induction false} RunsToItsCommit(sys: System, id: nat)
    requires WorkerOf(sys, id).Working? && OnCourse(sys.db, WorkerOf(sys, id))
    ensures var w := WorkerOf(sys, id);
            var t := Interleave(sys, Executions(id, |w.todo|) + [Commit(id)]);
            t.db == TickAll(sys.db, w.sessions) && t.committed == sys.committed + [w.sessions] && t.lock.None?
  {
    var n := |WorkerOf(sys, id).todo|;
    ExecutesToTheEnd(sys, id);
    InterleaveAppend(sys, Executions(id, n), [Commit(id)]);
    OneEvent(Interleave(sys, Executions(id, n)), Commit(id));
  }

  /** From any free lock, a worker that tries it, executes its statements and commits has run the whole tick. */
  lemma {:induction false} LoneWorkerRunsTheTick(sys: System, id: nat, sessions: seq<Session>)
    requires sys.lock.None? && WorkerOf(sys, id).Idle? && |sessions| == |sys.db|
    ensures var n := |Program(sessions)|;
            var t := Interleave(sys, [TryLock(id, sessions)] + (Executions(id, n) + [Commit(id)]));
            t.db == TickAll(sys.db, sessions) && t.committed == sys.committed + [sessions] && t.lock.None?
  {
    LockIsGrantedWhenFree(sys, id, sessions);
    StartsOnCourse(sys.db, sessions);
    InterleaveAppend(sys, [TryLock(id, sessions)], Executions(id, |Program(sessions)|) + [Commit(id)]);
    OneEvent(sys, TryLock(id, sessions));
    RunsToItsCommit(Next(sys, TryLock(id, sessions)), id);
  }
}
