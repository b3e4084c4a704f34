/** Live events for connected clients: bounded queues, fan-out to all of them, and the single listener behind it. */
module Broadcaster {
  import opened Wrappers

  const SUBSCRIBER_QUEUE_SIZE: nat := 100

  type Payload = string

  // --- Fan-out ------------------------------------------------------------------------------------

  /** One client: whether its queue is still registered, what waits in it, and what it has taken out. */
  datatype Client = Client(registered: bool, queue: seq<Payload>, received: seq<Payload>)

  datatype Step =
    | FanOut(payload: Payload)
    | Take(client: nat)
    | Join(client: nat)
    | Leave(client: nat)
    | ClearAll

  /** Offer one event: a full queue drops it. */
  function Offered(c: Client, payload: Payload): Client {
    if c.registered && |c.queue| < SUBSCRIBER_QUEUE_SIZE then c.(queue := c.queue + [payload]) else c
  }

  function Taken(c: Client): Client {
    if c.queue == [] then c else c.(queue := c.queue[1..], received := c.received + [c.queue[0]])
  }

  function Next(s: map<nat, Client>, step: Step): map<nat, Client> {
    match step
    case FanOut(payload) => map i | i in s :: Offered(s[i], payload)
    case Take(i) => if i in s then s[i := Taken(s[i])] else s
    case Join(i) => if i in s then s else s[i := Client(true, [], [])]
    case Leave(i) => if i in s then s[i := s[i].(registered := false)] else s
    case ClearAll => map i | i in s :: s[i].(registered := false)
  }

  function Run(s: map<nat, Client>, steps: seq<Step>): map<nat, Client>
    decreases |steps|
  {
    if steps == [] then s else Run(Next(s, steps[0]), steps[1..])
  }

  function ClientOf(s: map<nat, Client>, id: nat): Option<Client> {
    if id in s then Some(s[id]) else None
  }

  /** The steps that concern one client: the events, the clearing of the whole set, and its own moves. */
  predicate Concerns(step: Step, id: nat) {
    match step
    case FanOut(_) => true
    case ClearAll => true
    case Take(i) => i == id
    case Join(i) => i == id
    case Leave(i) => i == id
  }

  function OwnSteps(steps: seq<Step>, id: nat): seq<Step> {
    if steps == [] then []
    else if Concerns(steps[0], id) then [steps[0]] + OwnSteps(steps[1..], id)
    else OwnSteps(steps[1..], id)
  }

  lemma {:induction false} SameStepSameClient(s: map<nat, Client>, t: map<nat, Client>, step: Step, id: nat)
    requires ClientOf(s, id) == ClientOf(t, id)
    ensures ClientOf(Next(s, step), id) == ClientOf(Next(t, step), id)
  {
  }

  /** Isolation: whatever other clients do, how slow they are and when they come or go, changes nothing for this one. */
  lemma {:induction false} OthersDoNotMatter(s: map<nat, Client>, t: map<nat, Client>, steps: seq<Step>, id: nat)
    requires ClientOf(s, id) == ClientOf(t, id)
    ensures ClientOf(Run(s, steps), id) == ClientOf(Run(t, OwnSteps(steps, id)), id)
    decreases |steps|
  {
    if steps != [] {
      if !Concerns(steps[0], id) {
        OthersDoNotMatter(Next(s, steps[0]), t, steps[1..], id);
      } else {
        SameStepSameClient(s, t, steps[0], id);
        OthersDoNotMatter(Next(s, steps[0]), Next(t, steps[0]), steps[1..], id);
        var mine := OwnSteps(steps, id);
        assert mine[0] == steps[0] && mine[1..] == OwnSteps(steps[1..], id);
      }
    }
  }

  /** `xs` can be had from `ys` by leaving some elements out. */
  predicate InOrderWithin(xs: seq<Payload>, ys: seq<Payload>) {
    xs == [] ||
    (ys != [] &&
      ((xs[|xs| - 1] == ys[|ys| - 1] && InOrderWithin(xs[..|xs| - 1], ys[..|ys| - 1]))
        || InOrderWithin(xs, ys[..|ys| - 1])))
  }

  /** What one step lets this client hear. */
  function HeardNow(s: map<nat, Client>, step: Step, id: nat): seq<Payload> {
    if step.FanOut? && id in s && s[id].registered then [step.payload] else []
  }

  /** Everything fanned out while this client was registered. */
  function Heard(s: map<nat, Client>, steps: seq<Step>, id: nat): seq<Payload>
    decreases |steps|
  {
    if steps == [] then [] else HeardNow(s, steps[0], id) + Heard(Next(s, steps[0]), steps[1..], id)
  }

  /** How many of those found its queue full. */
  function Dropped(s: map<nat, Client>, steps: seq<Step>, id: nat): nat
    decreases |steps|
  {
    if steps == [] then 0
    else (if FullFor(s, steps[0], id) then 1 else 0) + Dropped(Next(s, steps[0]), steps[1..], id)
  }

  predicate FullFor(s: map<nat, Client>, step: Step, id: nat) {
    HeardNow(s, step, id) != [] && |s[id].queue| == SUBSCRIBER_QUEUE_SIZE
  }

  function Held(s: map<nat, Client>, id: nat): seq<Payload> {
    if id in s then s[id].received + s[id].queue else []
  }

  ghost predicate Bounded(s: map<nat, Client>) {
    forall i | i in s :: |s[i].queue| <= SUBSCRIBER_QUEUE_SIZE
  }

  lemma {:induction false} OrderExtends(xs: seq<Payload>, ys: seq<Payload>, y: Payload)
    requires InOrderWithin(xs, ys)
    ensures InOrderWithin(xs + [y], ys + [y]) && InOrderWithin(xs, ys + [y])
  {
  }

  lemma {:induction false} OneStepHolds(s: map<nat, Client>, step: Step, id: nat)
    requires Bounded(s)
    ensures Bounded(Next(s, step))
    ensures Held(Next(s, step), id) == Held(s, id) + if FullFor(s, step, id) then [] else HeardNow(s, step, id)
  {
  }

  lemma {:induction false} NothingIsLostUncounted(s: map<nat, Client>, steps: seq<Step>, id: nat)
    requires Bounded(s)
    ensures Bounded(Run(s, steps))
    ensures |Held(Run(s, steps), id)| + Dropped(s, steps, id) == |Held(s, id)| + |Heard(s, steps, id)|
    decreases |steps|
  {
    if steps != [] {
      OneStepHolds(s, steps[0], id);
      NothingIsLostUncounted(Next(s, steps[0]), steps[1..], id);
    }
  }

  lemma {:induction false} StepInOrder(s: map<nat, Client>, step: Step, id: nat, before: seq<Payload>)
    requires Bounded(s) && InOrderWithin(Held(s, id), before)
    ensures Bounded(Next(s, step)) && InOrderWithin(Held(Next(s, step), id), before + HeardNow(s, step, id))
  {
    OneStepHolds(s, step, id);
    var now, held := HeardNow(s, step, id), Held(s, id);
    if now == [] {
      assert before + now == before && held + now == held;
    } else {
      OrderExtends(held, before, step.payload);
      assert held + [] == held;
    }
  }

  /** In every run, what a client has received plus what still waits is an in-order part of what was fanned out
      while it was registered; only events that found its queue full are missing, and no queue outgrows its bound. */
  lemma {:induction false} DeliveredInOrder(s: map<nat, Client>, steps: seq<Step>, id: nat, before: seq<Payload>)
    requires Bounded(s) && InOrderWithin(Held(s, id), before)
    ensures InOrderWithin(Held(Run(s, steps), id), before + Heard(s, steps, id))
    decreases |steps|
  {
    if steps == [] {
      assert before + [] == before;
    } else {
      var now, rest := HeardNow(s, steps[0], id), Heard(Next(s, steps[0]), steps[1..], id);
      StepInOrder(s, steps[0], id, before);
      DeliveredInOrder(Next(s, steps[0]), steps[1..], id, before + now);
      Regroup(before, now, rest);
    }
  }

  lemma {:induction false} Regroup(xs: seq<Payload>, ys: seq<Payload>, zs: seq<Payload>)
    ensures (xs + ys) + zs == xs + (ys + zs)
  {
  }

  lemma {:induction false} FullLengthIsEquality(xs: seq<Payload>, ys: seq<Payload>)
    requires InOrderWithin(xs, ys)
    ensures |xs| <= |ys| && (|xs| == |ys| ==> xs == ys)
    decreases |ys|
  {
    if xs != [] {
      if xs[|xs| - 1] == ys[|ys| - 1] && InOrderWithin(xs[..|xs| - 1], ys[..|ys| - 1]) {
        FullLengthIsEquality(xs[..|xs| - 1], ys[..|ys| - 1]);
        assert xs == xs[..|xs| - 1] + [xs[|xs| - 1]] && ys == ys[..|ys| - 1] + [ys[|ys| - 1]];
      } else {
        FullLengthIsEquality(xs, ys[..|ys| - 1]);
      }
    }
  }

  /** A client that starts empty holds everything it heard exactly when it never let its queue fill up. */
  lemma {:induction false} NothingIsLostExactlyWhenNeverFull(s: map<nat, Client>, steps: seq<Step>, id: nat)
    requires Bounded(s) && Held(s, id) == []
    ensures Held(Run(s, steps), id) == Heard(s, steps, id) <==> Dropped(s, steps, id) == 0
  {
    DeliveredInOrder(s, steps, id, []);
    NothingIsLostUncounted(s, steps, id);
    assert [] + Heard(s, steps, id) == Heard(s, steps, id);
    FullLengthIsEquality(Held(Run(s, steps), id), Heard(s, steps, id));
  }

  // --- What a client hears, from the steps alone ------------------------------------------------------------

  predicate EndsStay(step: Step, id: nat) {
    step == Leave(id) || step == ClearAll
  }

  /** The events fanned out until the client leaves or the set is cleared. */
  function UntilGone(steps: seq<Step>, id: nat): seq<Payload> {
    if steps == [] || EndsStay(steps[0], id) then []
    else (if steps[0].FanOut? then [steps[0].payload] else []) + UntilGone(steps[1..], id)
  }

  /** The events of the client's stay, which begins at its first joining. */
  function DuringStay(steps: seq<Step>, id: nat): seq<Payload> {
    if steps == [] then []
    else if steps[0] == Join(id) then UntilGone(steps[1..], id)
    else DuringStay(steps[1..], id)
  }

  /** A client hears every event fanned out between its joining and its leaving or the next clearing, and nothing
      before or after, whatever else happens. */
  lemma {:induction false} HeardIsTheStay(s: map<nat, Client>, steps: seq<Step>, id: nat)
    ensures Heard(s, steps, id) ==
            if id !in s then DuringStay(steps, id) else if s[id].registered then UntilGone(steps, id) else []
    decreases |steps|
  {
    if steps != [] { HeardIsTheStay(Next(s, steps[0]), steps[1..], id); }
  }

  /** A client alone with the fan-out receives each event into its queue, oldest first, while there is room. */
  lemma {:induction false} QueueFillsInOrder(s: map<nat, Client>, payloads: seq<Payload>, id: nat)
    requires id in s && s[id].registered && |s[id].queue| + |payloads| <= 100
    ensures var t := Run(s, seq(|payloads|, k requires 0 <= k < |payloads| => FanOut(payloads[k])));
            id in t && t[id] == s[id].(queue := s[id].queue + payloads)
    decreases |payloads|
  {
    var steps := seq(|payloads|, k requires 0 <= k < |payloads| => FanOut(payloads[k]));
    if payloads == [] {
      assert s[id].queue + payloads == s[id].queue;
    } else {
      var rest := payloads[1..];
      assert steps[1..] == seq(|rest|, k requires 0 <= k < |rest| => FanOut(rest[k]));
      QueueFillsInOrder(Next(s, steps[0]), rest, id);
      assert s[id].queue + payloads == (s[id].queue + [payloads[0]]) + rest;
    }
  }

  // --- The object ----------------------------------------------------------------------------------------

  /** The registered queues that have no room. */
  ghost function FullQueues(subscribers: set<nat>, queues: map<nat, seq<Payload>>): set<nat> {
    set i | i in subscribers && i in queues && |queues[i]| >= SUBSCRIBER_QUEUE_SIZE
  }

  /** `queues` is `before` with the event put wherever there was room among `done`. */
  ghost predicate PutInto(before: map<nat, seq<Payload>>, queues: map<nat, seq<Payload>>, done: set<nat>,
                          payload: Payload) {
    && queues.Keys == before.Keys
    && forall i | i in before ::
         queues[i] == if i in done && |before[i]| < SUBSCRIBER_QUEUE_SIZE then before[i] + [payload] else before[i]
  }

  lemma {:induction false} FullOneMore(done: set<nat>, queues: map<nat, seq<Payload>>, i: nat)
    requires i in queues && i !in done
    ensures |FullQueues(done + {i}, queues)| ==
            |FullQueues(done, queues)| + if |queues[i]| < SUBSCRIBER_QUEUE_SIZE then 0 else 1
  {
    if |queues[i]| < SUBSCRIBER_QUEUE_SIZE {
      assert FullQueues(done + {i}, queues) == FullQueues(done, queues);
    } else {
      assert FullQueues(done + {i}, queues) == FullQueues(done, queues) + {i};
    }
  }

  /** One more queue, put into if it has room. */
  lemma {:induction false} PutOneMore(before: map<nat, seq<Payload>>, queues: map<nat, seq<Payload>>, done: set<nat>,
                                      i: nat, payload: Payload)
    requires PutInto(before, queues, done, payload) && i in before && i !in done
    ensures i in queues && queues[i] == before[i]
    ensures var room := |queues[i]| < SUBSCRIBER_QUEUE_SIZE;
            PutInto(before, if room then queues[i := queues[i] + [payload]] else queues, done + {i}, payload)
  {
  }

  /** Put the event in every registered queue that has room, in whatever order the set yields them. */
  method PutAll(subscribers: set<nat>, before: map<nat, seq<Payload>>, payload: Payload)
    returns (queues: map<nat, seq<Payload>>, dropped: nat)
    requires subscribers <= before.Keys
    ensures PutInto(before, queues, subscribers, payload)
    ensures dropped == |FullQueues(subscribers, before)|
  {
    var todo := subscribers;
    ghost var done: set<nat> := {};
    queues, dropped := before, 0;
    while todo != {}
      invariant done + todo == subscribers && done !! todo
      invariant PutInto(before, queues, done, payload)
      invariant dropped == |FullQueues(done, before)|
      decreases |todo|
    {
      var i :| i in todo;
      assert i in before;
      FullOneMore(done, before, i);
      PutOneMore(before, queues, done, i, payload);
      if |queues[i]| < SUBSCRIBER_QUEUE_SIZE {
        queues := queues[i := queues[i] + [payload]];
      } else {
        dropped := dropped + 1;
      }
      todo, done := todo - {i}, done + {i};
    }
    assert done == subscribers;
  }

  /** The subscriber set and the queues. `taken` records what each client has read. */
  class LiveEventBroadcaster {
    var subscribers: set<nat>
    var queues: map<nat, seq<Payload>>
    ghost var taken: map<nat, seq<Payload>>

    ghost function View(): map<nat, Client>
      requires queues.Keys == taken.Keys
      reads this
    {
      map i | i in queues :: Client(i in subscribers, queues[i], taken[i])
    }

    ghost predicate Valid()
      reads this
    {
      && queues.Keys == taken.Keys && subscribers <= queues.Keys
      && (forall i | i in queues :: |queues[i]| <= SUBSCRIBER_QUEUE_SIZE)
    }

    constructor ()
      ensures Valid() && View() == map[]
    {
      subscribers, queues, taken := {}, map[], map[];
    }

    method FanOutEvent(payload: Payload) returns (dropped: nat)
      requires Valid()
      modifies this
      ensures Valid() && View() == Next(old(View()), FanOut(payload))
      ensures subscribers == old(subscribers) && PutInto(old(queues), queues, subscribers, payload)
      ensures dropped == |FullQueues(old(subscribers), old(queues))|
    {
      queues, dropped := PutAll(subscribers, queues, payload);
    }

    /** The WebSocket end takes its oldest event, if there is one. */
    method TakeOne(id: nat) returns (event: Option<Payload>)
      requires Valid() && id in queues
      modifies this
      ensures Valid() && View() == Next(old(View()), Take(id))
      ensures event == if old(queues)[id] == [] then None else Some(old(queues)[id][0])
      ensures subscribers == old(subscribers) && queues.Keys == old(queues).Keys
      ensures queues == old(queues)[id := if old(queues)[id] == [] then [] else old(queues)[id][1..]]
    {
      if queues[id] == [] {
        return None;
      }
      event := Some(queues[id][0]);
      taken := taken[id := taken[id] + [queues[id][0]]];
      queues := queues[id := queues[id][1..]];
    }

    method Subscribe(id: nat)
      requires Valid() && id !in queues
      modifies this
      ensures Valid() && View() == Next(old(View()), Join(id))
      ensures subscribers == old(subscribers) + {id} && queues == old(queues)[id := []]
    {
      queues, taken := queues[id := []], taken[id := []];
      subscribers := subscribers + {id};
    }

    method Unsubscribe(id: nat)
      requires Valid()
      modifies this
      ensures Valid() && View() == Next(old(View()), Leave(id))
      ensures subscribers == old(subscribers) - {id} && queues == old(queues)
    {
      subscribers := subscribers - {id};
    }

    /** The end of `stop`: nobody is registered any more; what waits in the queues stays there. */
    method Clear()
      requires Valid()
      modifies this
      ensures Valid() && View() == Next(old(View()), ClearAll)
      ensures subscribers == {} && queues == old(queues)
    {
      subscribers := {};
    }
  }

  // --- The listener task ------------------------------------------------------------------------------------

  /** Where a caller of `start` or `stop` stands with the lock. */
  datatype Call = WantsStart | WantsStop | Stopping(task: nat) | Returned | Gone

  /** The lock, the listener field, the listeners not yet finished, the callers, and the registered queues. */
  datatype Lifecycle = Lifecycle(
    lock: Option<nat>, task: Option<nat>, live: set<nat>, spawned: nat, calls: map<nat, Call>, registered: set<nat>)

  datatype Move =
    | Subscribing(caller: nat)
    | CallStop(caller: nat)
    | Granted(caller: nat)
    | TaskEnds(task: nat)
    | Resumed(caller: nat)
    | Leaving(caller: nat)
    | Cancelled(caller: nat)

  function CallOf(s: Lifecycle, c: nat): Call {
    if c in s.calls then s.calls[c] else Returned
  }

  /** `subscribe` registers its queue and then waits in `start`, and only once `start` has returned does it take the
      queue out again when its client goes: one cancelled while it waits leaves the queue behind. `stop` holds the
      lock while it awaits the cancelled task, and clears the registrations once it has let the lock go. */
  function Moved(s: Lifecycle, m: Move): Lifecycle {
    match m
    case Subscribing(c) =>
      if c in s.calls then s else s.(calls := s.calls[c := WantsStart], registered := s.registered + {c})
    case CallStop(c) =>
      if c in s.calls then s else s.(calls := s.calls[c := WantsStop])
    case Granted(c) =>
      if s.lock.Some? then s
      else
        (match CallOf(s, c)
         case WantsStart =>
           if s.task.None? || s.task.value !in s.live
           then s.(task := Some(s.spawned), live := s.live + {s.spawned}, spawned := s.spawned + 1,
                   calls := s.calls[c := Returned])
           else s.(calls := s.calls[c := Returned])
         case WantsStop =>
           if s.task.None? then s.(calls := s.calls[c := Returned], registered := {})
           else s.(lock := Some(c), calls := s.calls[c := Stopping(s.task.value)])
         case _ => s)
    case TaskEnds(t) => s.(live := s.live - {t})
    case Resumed(c) =>
      (match CallOf(s, c)
      case Stopping(t) =>
        if t in s.live then s
        else s.(lock := None, task := None, calls := s.calls[c := Returned], registered := {})
      case _ => s)
    case Leaving(c) =>
      if c !in s.calls || !s.calls[c].Returned? then s
      else s.(calls := s.calls[c := Gone], registered := s.registered - {c})
    case Cancelled(c) =>
      if CallOf(s, c).WantsStart? then s.(calls := s.calls[c := Gone]) else s
  }

  /** What each move leaves, caller by caller: who waits, who holds the lock, which listener runs, who is registered. */
  lemma {:induction false} MovesWrite(s: Lifecycle, c: nat)
    ensures c !in s.calls ==>
              && Moved(s, Subscribing(c)) == s.(calls := s.calls[c := WantsStart], registered := s.registered + {c})
              && Moved(s, CallStop(c)) == s.(calls := s.calls[c := WantsStop])
    ensures var t := Moved(s, Granted(c));
            && (s.lock.Some? ==> t == s)
            && (s.lock.None? && CallOf(s, c).WantsStart? ==>
                  && CallOf(t, c).Returned? && t.lock.None? && t.registered == s.registered
                  && t.task.Some? && t.task.value in t.live
                  && (if s.task.Some? && s.task.value in s.live then t.task == s.task && t.live == s.live
                      else t.task == Some(s.spawned) && t.live == s.live + {s.spawned} && t.spawned == s.spawned + 1))
            && (s.lock.None? && CallOf(s, c).WantsStop? ==>
                  if s.task.None? then t == s.(calls := s.calls[c := Returned], registered := {})
                  else t == s.(lock := Some(c), calls := s.calls[c := Stopping(s.task.value)]))
    ensures CallOf(s, c).Stopping? ==>
              Moved(s, Resumed(c)) ==
              if CallOf(s, c).task in s.live then s
              else s.(lock := None, task := None, calls := s.calls[c := Returned], registered := {})
    ensures c in s.calls && s.calls[c].Returned? ==>
              Moved(s, Leaving(c)) == s.(calls := s.calls[c := Gone], registered := s.registered - {c})
    ensures CallOf(s, c).WantsStart? ==> Moved(s, Cancelled(c)) == s.(calls := s.calls[c := Gone])
    ensures Moved(s, TaskEnds(c)) == s.(live := s.live - {c})
  {
  }

  function Moves(s: Lifecycle, ms: seq<Move>): Lifecycle
    decreases |ms|
  {
    if ms == [] then s else Moves(Moved(s, ms[0]), ms[1..])
  }

  /** Only the listener in the field can be live, and a stop in progress holds the lock on that very one. */
  ghost predicate OneListener(s: Lifecycle) {
    && (forall t | t in s.live :: s.task == Some(t))
    && (forall t | t in s.live :: t < s.spawned)
    && (forall c | c in s.calls && s.calls[c].Stopping? :: s.lock == Some(c) && s.task == Some(s.calls[c].task))
  }

  lemma {:induction false} OneMove(s: Lifecycle, m: Move)
    requires OneListener(s)
    ensures OneListener(Moved(s, m))
  {
  }

  /** However starts, stops, subscriptions and endings interleave, at most one listener task is live. */
  lemma {:induction false} AtMostOneListener(s: Lifecycle, ms: seq<Move>)
    requires OneListener(s)
    ensures OneListener(Moves(s, ms)) && |Moves(s, ms).live| <= 1
    decreases |ms|
  {
    if ms == [] {
      if s.live != {} {
        var t :| t in s.live;
        assert s.live == {t};
      }
    } else {
      OneMove(s, ms[0]);
      AtMostOneListener(Moved(s, ms[0]), ms[1..]);
    }
  }

  lemma {:induction false} NeverRegisteredAgain(s: Lifecycle, ms: seq<Move>, id: nat)
    requires id in s.calls && id !in s.registered
    ensures id in Moves(s, ms).calls && id !in Moves(s, ms).registered
    decreases |ms|
  {
    if ms != [] {
      NeverRegisteredAgain(Moved(s, ms[0]), ms[1..], id);
    }
  }

  /** A stop reaches its clearing: there was no listener to wait for, or the one it cancelled has ended. */
  predicate Clears(s: Lifecycle, m: Move) {
    match m
    case Granted(c) => s.lock.None? && CallOf(s, c).WantsStop? && s.task.None?
    case Resumed(c) => CallOf(s, c).Stopping? && CallOf(s, c).task !in s.live
    case _ => false
  }

  /** The client itself goes, once its `subscribe` has returned. */
  predicate Goes(s: Lifecycle, m: Move, id: nat) {
    m == Leaving(id) && id in s.calls && s.calls[id].Returned?
  }

  predicate RemovedIn(s: Lifecycle, ms: seq<Move>, id: nat)
    decreases |ms|
  {
    ms != [] && (Clears(s, ms[0]) || Goes(s, ms[0], id) || RemovedIn(Moved(s, ms[0]), ms[1..], id))
  }

  /** A registered client is still registered at the end of a run exactly when no stop cleared the set and the
      client did not leave: the lock a waiting `subscribe` queues on does not protect it. */
  lemma {:induction false} RegisteredExactlyWhenNotCleared(s: Lifecycle, ms: seq<Move>, id: nat)
    requires id in s.calls && id in s.registered
    ensures id in Moves(s, ms).registered <==> !RemovedIn(s, ms, id)
    decreases |ms|
  {
    if ms != [] {
      var t := Moved(s, ms[0]);
      if Clears(s, ms[0]) || Goes(s, ms[0], id) {
        NeverRegisteredAgain(t, ms[1..], id);
      } else {
        RegisteredExactlyWhenNotCleared(t, ms[1..], id);
      }
    }
  }

  predicate ClearedIn(s: Lifecycle, ms: seq<Move>)
    decreases |ms|
  {
    ms != [] && (Clears(s, ms[0]) || ClearedIn(Moved(s, ms[0]), ms[1..]))
  }

  /** A client that has gone is still registered exactly when it was cancelled in the wait for `start` and no stop has
      cleared the set since: its queue then stays, with nobody to empty it. */
  lemma {:induction false} GoneButRegisteredExactlyWhen(s: Lifecycle, ms: seq<Move>, id: nat)
    requires id in s.calls && s.calls[id].WantsStart? && id in s.registered && CallOf(Moves(s, ms), id).Gone?
    ensures id in Moves(s, ms).registered <==> CancelledIn(s, ms, id) && !ClearedIn(s, ms)
    decreases |ms|
  {
    if ms != [] {
      var t := Moved(s, ms[0]);
      if Clears(s, ms[0]) {
        NeverRegisteredAgain(t, ms[1..], id);
      } else if ms[0] == Cancelled(id) {
        GoneStays(t, ms[1..], id);
      } else if ms[0] == Granted(id) && s.lock.None? {
        ReturnedThenGone(t, ms[1..], id);
      } else {
        GoneButRegisteredExactlyWhen(t, ms[1..], id);
      }
    }
  }

  /** The client's wait was cancelled at some move of the run. */
  predicate CancelledIn(s: Lifecycle, ms: seq<Move>, id: nat)
    decreases |ms|
  {
    ms != [] && ((ms[0] == Cancelled(id) && CallOf(s, id).WantsStart?) || CancelledIn(Moved(s, ms[0]), ms[1..], id))
  }

  lemma {:induction false} GoneStays(s: Lifecycle, ms: seq<Move>, id: nat)
    requires id in s.calls && s.calls[id].Gone? && id in s.registered
    ensures id in Moves(s, ms).registered <==> !ClearedIn(s, ms)
    decreases |ms|
  {
    if ms != [] {
      if Clears(s, ms[0]) {
        NeverRegisteredAgain(Moved(s, ms[0]), ms[1..], id);
      } else {
        GoneStays(Moved(s, ms[0]), ms[1..], id);
      }
    }
  }

  lemma {:induction false} ReturnedThenGone(s: Lifecycle, ms: seq<Move>, id: nat)
    requires id in s.calls && (s.calls[id].Returned? || (s.calls[id].Gone? && id !in s.registered))
    ensures !CancelledIn(s, ms, id)
    ensures CallOf(Moves(s, ms), id).Gone? ==> id !in Moves(s, ms).registered
    decreases |ms|
  {
    if ms != [] { ReturnedThenGone(Moved(s, ms[0]), ms[1..], id); }
  }

  /** Such a client is reachable: it subscribes to an idle broadcaster and is cancelled before its turn. */
  lemma {:induction false} CancelledClientStaysRegistered()
    ensures var t := Moves(IDLE, [Subscribing(0), Cancelled(0)]); CallOf(t, 0).Gone? && 0 in t.registered
  {
  }

  /** A client that subscribes while a stop is waiting for its task is cleared by that stop before its own start is
      granted: it is served by a live listener, yet its queue is registered at no later moment of any run. */
  lemma {:induction false} StopDeafensAWaitingClient(s: Lifecycle, stopper: nat, id: nat, later: seq<Move>)
    requires OneListener(s) && id in s.calls && s.calls[id].WantsStart? && id in s.registered
    requires stopper in s.calls && s.calls[stopper].Stopping? && s.calls[stopper].task !in s.live
    ensures var t := Moved(Moved(s, Resumed(stopper)), Granted(id));
            && CallOf(t, id).Returned? && t.live != {}
            && id !in Moves(t, later).registered
  {
    var t := Moved(Moved(s, Resumed(stopper)), Granted(id));
    assert s.spawned in t.live;
    NeverRegisteredAgain(t, later, id);
  }

  const IDLE: Lifecycle := Lifecycle(None, None, {}, 0, map[], {})

  /** A client subscribes, a stop cancels the listener, a second client subscribes, the listener ends. */
  const STOP_RACE: seq<Move> := [Subscribing(0), Granted(0), CallStop(1), Granted(1), Subscribing(2), TaskEnds(0)]

  /** The race is reachable from an idle broadcaster: client 2 ends up deaf on a live listener for good. */
  lemma {:induction false} DeafClientIsReachable(later: seq<Move>)
    ensures OneListener(IDLE)
    ensures var t := Moved(Moved(Moves(IDLE, STOP_RACE), Resumed(1)), Granted(2));
            CallOf(t, 2).Returned? && t.live != {} && 2 !in Moves(t, later).registered
  {
    AfterTheRace();
    StopDeafensAWaitingClient(Moves(IDLE, STOP_RACE), 1, 2, later);
  }

  lemma {:induction false} AfterTheRace()
    ensures Moves(IDLE, STOP_RACE) == Lifecycle(Some(1), Some(0), {}, 1,
            map[0 := Returned, 1 := Stopping(0), 2 := WantsStart], {0, 2})
  {
  }
}
