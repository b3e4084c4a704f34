/** The fixed-window rate limiter for one identifier: INCR and TTL run as one transaction, EXPIRE is a later call of
    its own, and any number of requests interleave. Time is in Redis's own ticks. */
module RateLimiter {
  import opened Wrappers

  /** The counter key; `expiry` is None until some EXPIRE has landed on it. */
  datatype Key = Key(life: nat, count: nat, expiry: Option<int>)

  /** One request's INCR: when, in which lifetime of the key, and the count it got. */
  datatype Hit = Hit(time: int, life: nat, count: nat)

  /** The server, the requests that owe an EXPIRE, and the record: when each lifetime began, and every INCR. */
  datatype State = State(now: int, key: Option<Key>, owing: set<nat>, births: seq<int>, hits: seq<Hit>)

  datatype Step =
    | Arrive(request: nat)
    | SendExpire(request: nat)
    | Die(request: nat)
    | Elapse(ticks: nat)

  predicate Alive(s: State) {
    s.key.Some? && (s.key.value.expiry.None? || s.now < s.key.value.expiry.value)
  }

  /** INCR then TTL, atomically: a key that is not alive is created anew without a TTL. */
  function Incr(s: State, request: nat): State {
    if Alive(s) then
      var k := s.key.value;
      s.(key := Some(k.(count := k.count + 1)),
         owing := if k.expiry.None? then s.owing + {request} else s.owing,
         hits := s.hits + [Hit(s.now, k.life, k.count + 1)])
    else
      s.(key := Some(Key(|s.births|, 1, None)), owing := s.owing + {request},
         births := s.births + [s.now], hits := s.hits + [Hit(s.now, |s.births|, 1)])
  }

  /** EXPIRE: sets the whole window from now on a key that exists, and does nothing otherwise. */
  function Expire(s: State, window: int): State {
    if Alive(s) then s.(key := Some(s.key.value.(expiry := Some(s.now + window)))) else s
  }

  function Next(s: State, step: Step, window: int): State {
    match step
    case Arrive(r) => Incr(s, r)
    case SendExpire(r) => if r in s.owing then Expire(s, window).(owing := s.owing - {r}) else s
    case Die(r) => s.(owing := s.owing - {r})
    case Elapse(ticks) => s.(now := s.now + ticks)
  }

  function Run(s: State, steps: seq<Step>, window: int): State
    decreases |steps|
  {
    if steps == [] then s else Run(Next(s, steps[0], window), steps[1..], window)
  }

  function Fresh(now: int): State {
    State(now, None, {}, [], [])
  }

  predicate Allowed(h: Hit, limit: int) {
    h.count <= limit
  }

  /** What each step leaves: INCR counts a living key on under its own expiry, and starts a dead one at one without any;
      EXPIRE gives a living key the whole window from now, once for each request that owes it; a death only forgets
      the debt; time only moves on. */
  lemma {:induction false} StepsWrite(s: State, r: nat, ticks: nat, window: int)
    ensures var living := s.key.Some? && (s.key.value.expiry.None? || s.now < s.key.value.expiry.value);
            var i, e := Next(s, Arrive(r), window), Next(s, SendExpire(r), window);
            && i.now == s.now && i.key.Some? && i.hits == s.hits + [Hit(s.now, i.key.value.life, i.key.value.count)]
            && (if living then
                  && i.births == s.births && i.key == Some(Key(s.key.value.life, s.key.value.count + 1,
                    s.key.value.expiry))
                  && i.owing == if s.key.value.expiry.None? then s.owing + {r} else s.owing
                else
                  i.births == s.births + [s.now] && i.key == Some(Key(|s.births|, 1, None)) && i.owing == s.owing + {r})
            && e == s.(owing := s.owing - {r},
                       key := if r in s.owing && living then
                                Some(Key(s.key.value.life, s.key.value.count, Some(s.now + window)))
                              else s.key)
            && Next(s, Die(r), window) == s.(owing := s.owing - {r})
            && Next(s, Elapse(ticks), window) == s.(now := s.now + ticks)
  {
    if r !in s.owing { assert s.owing - {r} == s.owing; }
  }

  // --- The invariant ------------------------------------------------------------------------------

  /** Lifetimes are at least a window apart. */
  ghost predicate Spaced(births: seq<int>, window: int) {
    forall i, j | 0 <= i < j < |births| :: births[i] + window <= births[j]
  }

  /** A hit falls in its own lifetime, and the first of a lifetime falls at its birth. */
  ghost predicate InItsLife(h: Hit, births: seq<int>) {
    && h.life < |births|
    && births[h.life] <= h.time
    && (h.count == 1 ==> h.time == births[h.life])
    && (forall j | h.life < j < |births| :: h.time < births[j])
  }

  ghost predicate TicketsDiffer(hits: seq<Hit>) {
    forall i, j | 0 <= i < j < |hits| :: hits[i].life == hits[j].life ==> hits[i].count != hits[j].count
  }

  ghost predicate HitsInOrder(s: State) {
    forall i | 0 <= i < |s.hits| :: InItsLife(s.hits[i], s.births) && s.hits[i].time <= s.now && s.hits[i].count > 0
  }

  /** The key belongs to the last lifetime: its count is the highest there, and it dies after every hit there
      and no earlier than one window after its birth. */
  ghost predicate KeyIsCurrent(s: State, k: Key, window: int) {
    && |s.births| == k.life + 1 && k.count > 0
    && (forall i | 0 <= i < |s.hits| && s.hits[i].life == k.life :: s.hits[i].count <= k.count)
    && (k.expiry.Some? ==> s.births[k.life] + window <= k.expiry.value)
    && (k.expiry.Some? ==> forall i | 0 <= i < |s.hits| && s.hits[i].life == k.life :: s.hits[i].time < k.expiry.value)
  }

  ghost predicate Inv(s: State, window: int) {
    && Spaced(s.births, window)
    && (forall i | 0 <= i < |s.births| :: s.births[i] <= s.now)
    && HitsInOrder(s)
    && TicketsDiffer(s.hits)
    && (if s.key.None? then s.births == [] else KeyIsCurrent(s, s.key.value, window))
  }

  lemma {:induction false} IncrOfLivingKey(s: State, r: nat, window: int)
    requires Inv(s, window) && window > 0 && Alive(s)
    ensures Inv(Incr(s, r), window)
  {
  }

  lemma {:induction false} DeadKeyOutlivedItsHits(s: State, window: int, i: nat)
    requires Inv(s, window) && window > 0 && !Alive(s) && i < |s.hits|
    ensures s.hits[i].time < s.now
    ensures s.births[|s.births| - 1] + window <= s.now
  {
  }

  /** A birth at `now`, a window or more after the last one, keeps births spaced. */
  lemma {:induction false} BirthKeepsSpacing(births: seq<int>, now: int, window: int)
    requires Spaced(births, window) && window > 0 && (births != [] ==> births[|births| - 1] + window <= now)
    ensures Spaced(births + [now], window)
  {
    var n := |births|;
    forall i, j | 0 <= i < j < n + 1 ensures (births + [now])[i] + window <= (births + [now])[j] {
      if j == n { assert i < n - 1 ==> births[i] + window <= births[n - 1]; }
    }
  }

  lemma {:induction false} IncrOfDeadKey(s: State, r: nat, window: int)
    requires Inv(s, window) && window > 0 && !Alive(s)
    ensures Inv(Incr(s, r), window)
  {
    var s', n := Incr(s, r), |s.births|;
    if s.births != [] { DeadKeyIsOld(s, window); }
    BirthKeepsSpacing(s.births, s.now, window);
    forall i | 0 <= i < |s.hits|
      ensures InItsLife(s'.hits[i], s'.births) && s'.hits[i] == s.hits[i] && s.hits[i].life < n && s.hits[i].count > 0
    {
      DeadKeyOutlivedItsHits(s, window, i);
      assert InItsLife(s.hits[i], s.births);
    }
    assert TicketsDiffer(s'.hits);
  }

  lemma {:induction false} DeadKeyIsOld(s: State, window: int)
    requires Inv(s, window) && window > 0 && !Alive(s) && s.births != []
    ensures s.births[|s.births| - 1] + window <= s.now
  {
  }

  /** What a whole call leaves: a living key with a TTL, its own or the one it found. */
  lemma {:induction false} CallLeavesATtl(s: State, request: nat, window: int)
    requires window > 0 && request !in s.owing
    ensures var i := Incr(s, request);
            var t := Next(i, SendExpire(request), window);
            && Alive(i) && i.hits != [] && i.hits[|i.hits| - 1].count == i.key.value.count && i.now == s.now
            && (i.key.value.expiry.None? ==>
                  request in i.owing && t == Expire(i, window).(owing := i.owing - {request}))
            && (i.key.value.expiry.Some? ==> t == i && Alive(s) && i.key.value.expiry == s.key.value.expiry)
            && Alive(t)
  {
  }

  lemma {:induction false} CallKeepsInv(s: State, request: nat, window: int)
    requires Inv(s, window) && window > 0
    ensures Inv(Next(Incr(s, request), SendExpire(request), window), window)
  {
    NextKeepsInv(s, Arrive(request), window);
    NextKeepsInv(Incr(s, request), SendExpire(request), window);
  }

  lemma {:induction false} NextKeepsInv(s: State, step: Step, window: int)
    requires Inv(s, window) && window > 0
    ensures Inv(Next(s, step, window), window)
  {
    match step
    case Arrive(r) => if Alive(s) { IncrOfLivingKey(s, r, window); } else { IncrOfDeadKey(s, r, window); }
    case SendExpire(r) =>
      if r in s.owing && Alive(s) {
        var s' := Next(s, step, window);
        forall i | 0 <= i < |s'.hits| ensures InItsLife(s'.hits[i], s'.births) {
          assert InItsLife(s.hits[i], s.births);
        }
      }
    case Die(_) =>
    case Elapse(_) =>
  }

  lemma {:induction false} RunKeepsInv(s: State, steps: seq<Step>, window: int)
    requires Inv(s, window) && window > 0
    ensures Inv(Run(s, steps, window), window)
    decreases |steps|
  {
    if steps != [] {
      NextKeepsInv(s, steps[0], window);
      RunKeepsInv(Next(s, steps[0], window), steps[1..], window);
    }
  }

  // --- The sliding-window bound ----------------------------------------------------------------------

  predicate Admitted(h: Hit, limit: int, from: int, until: int) {
    Allowed(h, limit) && from <= h.time < until
  }

  /** How many requests were let through in [from, until). */
  function AdmittedIn(hits: seq<Hit>, limit: int, from: int, until: int): nat {
    if hits == [] then 0
    else
      var last := hits[|hits| - 1];
      AdmittedIn(hits[..|hits| - 1], limit, from, until) + if Admitted(last, limit, from, until) then 1 else 0
  }

  /** The tickets (lifetime, count) those requests held. */
  ghost function Tickets(hits: seq<Hit>, limit: int, from: int, until: int): set<(nat, nat)> {
    set i | 0 <= i < |hits| && Admitted(hits[i], limit, from, until) :: (hits[i].life, hits[i].count)
  }

  lemma {:induction false} TicketsOfFront(hits: seq<Hit>, limit: int, from: int, until: int)
    requires TicketsDiffer(hits) && hits != []
    ensures var front, last := hits[..|hits| - 1], hits[|hits| - 1];
            && TicketsDiffer(front)
            && (last.life, last.count) !in Tickets(front, limit, from, until)
            && Tickets(hits, limit, from, until) == Tickets(front, limit, from, until)
               + (if Admitted(last, limit, from, until) then {(last.life, last.count)} else {})
  {
    var front, last := hits[..|hits| - 1], hits[|hits| - 1];
    assert forall i | 0 <= i < |front| :: front[i] == hits[i];
    forall i | 0 <= i < |front| ensures (hits[i].life, hits[i].count) != (last.life, last.count) {}
  }

  lemma {:induction false} AdmittedAreTickets(hits: seq<Hit>, limit: int, from: int, until: int)
    requires TicketsDiffer(hits)
    ensures AdmittedIn(hits, limit, from, until) == |Tickets(hits, limit, from, until)|
  {
    if hits != [] {
      TicketsOfFront(hits, limit, from, until);
      AdmittedAreTickets(hits[..|hits| - 1], limit, from, until);
    }
  }

  /** The tickets lo..hi of one lifetime. */
  ghost function Row(life: nat, lo: nat, hi: nat): (r: set<(nat, nat)>)
    ensures forall t :: t in r <==> t.0 == life && lo <= t.1 <= hi
    ensures |r| == if lo <= hi then hi - lo + 1 else 0
    decreases hi
  {
    if hi < lo then {}
    else if hi == 0 then {(life, 0)}
    else Row(life, lo, hi - 1) + {(life, hi)}
  }

  lemma {:induction false} SubsetSize<T>(a: set<T>, b: set<T>)
    requires a <= b
    ensures |a| <= |b|
  {
    assert b == a + (b - a);
  }

  /** The admitted hit of the earliest lifetime. */
  lemma {:induction false} EarliestLife(hits: seq<Hit>, limit: int, from: int, until: int) returns (k: nat)
    requires AdmittedIn(hits, limit, from, until) > 0
    ensures k < |hits| && Admitted(hits[k], limit, from, until)
    ensures forall i | 0 <= i < |hits| && Admitted(hits[i], limit, from, until) :: hits[k].life <= hits[i].life
  {
    var front, last := hits[..|hits| - 1], hits[|hits| - 1];
    assert forall i | 0 <= i < |front| :: front[i] == hits[i];
    if AdmittedIn(front, limit, from, until) == 0 {
      NoneAdmitted(front, limit, from, until);
      k := |hits| - 1;
      assert forall i | 0 <= i < |front| :: !Admitted(hits[i], limit, from, until);
    } else {
      k := EarliestLife(front, limit, from, until);
      var inFront := k;
      if Admitted(last, limit, from, until) && last.life < hits[k].life { k := |hits| - 1; }
      forall i | 0 <= i < |hits| && Admitted(hits[i], limit, from, until) ensures hits[k].life <= hits[i].life {
        if i < |front| { assert front[inFront].life <= front[i].life; }
      }
    }
  }

  lemma {:induction false} NoneAdmitted(hits: seq<Hit>, limit: int, from: int, until: int)
    requires AdmittedIn(hits, limit, from, until) == 0
    ensures forall i | 0 <= i < |hits| :: !Admitted(hits[i], limit, from, until)
  {
    if hits != [] {
      var front := hits[..|hits| - 1];
      NoneAdmitted(front, limit, from, until);
      forall i | 0 <= i < |hits| ensures !Admitted(hits[i], limit, from, until) {
        if i < |front| { assert front[i] == hits[i]; }
      }
    }
  }

  /** Two hits within one window lie in the same lifetime or in neighbouring ones, and in the latter case
      the earlier lifetime began before the window. */
  lemma {:induction false} LivesInAWindow(s: State, window: int, a: Hit, b: Hit, from: int)
    requires Inv(s, window) && window > 0
    requires InItsLife(a, s.births) && InItsLife(b, s.births) && a.life < b.life
    requires from <= a.time && b.time < from + window
    ensures b.life == a.life + 1 && s.births[a.life] < from
  {
    assert s.births[a.life] + window <= s.births[b.life];
    assert a.time < s.births[a.life + 1];
  }

  lemma {:induction false} OneLifeInWindow(hits: seq<Hit>, limit: nat, from: int, until: int, life: nat)
    requires forall i | 0 <= i < |hits| :: hits[i].count > 0
    requires forall i | 0 <= i < |hits| && Admitted(hits[i], limit, from, until) :: hits[i].life == life
    ensures |Tickets(hits, limit, from, until)| <= limit
  {
    var all, row := Tickets(hits, limit, from, until), Row(life, 1, limit);
    forall t | t in all ensures t in row {
      var i :| 0 <= i < |hits| && Admitted(hits[i], limit, from, until) && (hits[i].life, hits[i].count) == t;
    }
    SubsetSize(all, row);
  }

  lemma {:induction false} TwoLivesInWindow(hits: seq<Hit>, limit: nat, from: int, until: int, life: nat)
    requires limit > 0 && forall i | 0 <= i < |hits| :: hits[i].count > 0
    requires forall i | 0 <= i < |hits| && Admitted(hits[i], limit, from, until) ::
               (hits[i].life == life && hits[i].count > 1) || hits[i].life == life + 1
    ensures |Tickets(hits, limit, from, until)| <= 2 * limit - 1
  {
    var all, late, next := Tickets(hits, limit, from, until), Row(life, 2, limit), Row(life + 1, 1, limit);
    forall t | t in all ensures t in late + next {
      var i :| 0 <= i < |hits| && Admitted(hits[i], limit, from, until) && (hits[i].life, hits[i].count) == t;
    }
    SubsetSize(all, late + next);
    assert |late + next| <= |late| + |next|;
  }

  /** Once a window has seen two lifetimes, what it admits is the second and all but the first hit of the first. */
  lemma {:induction false} WindowAcrossLives(s: State, limit: nat, window: int, from: int, k: nat, j: nat)
    requires Inv(s, window) && window > 0 && k < |s.hits| && j < |s.hits|
    requires Admitted(s.hits[k], limit, from, from + window) && Admitted(s.hits[j], limit, from, from + window)
    requires s.hits[k].life < s.hits[j].life
    requires forall i | 0 <= i < |s.hits| && Admitted(s.hits[i], limit, from, from + window) ::
             s.hits[k].life <= s.hits[i].life
    ensures forall i | 0 <= i < |s.hits| && Admitted(s.hits[i], limit, from, from + window) ::
              (s.hits[i].life == s.hits[k].life && s.hits[i].count > 1) || s.hits[i].life == s.hits[k].life + 1
  {
    var a := s.hits[k];
    assert InItsLife(a, s.births) && InItsLife(s.hits[j], s.births);
    LivesInAWindow(s, window, a, s.hits[j], from);
    forall i | 0 <= i < |s.hits| && Admitted(s.hits[i], limit, from, from + window)
      ensures (s.hits[i].life == a.life && s.hits[i].count > 1) || s.hits[i].life == a.life + 1
    {
      assert InItsLife(s.hits[i], s.births);
      if s.hits[i].life != a.life {
        LivesInAWindow(s, window, a, s.hits[i], from);
      }
    }
  }

  /** In every reachable state, any stretch of one window lets through at most 2 * limit - 1 requests. */
  lemma {:induction false} WindowAdmitsUnderTwiceTheLimit(s: State, limit: nat, window: int, from: int)
    requires Inv(s, window) && window > 0 && limit > 0
    ensures AdmittedIn(s.hits, limit, from, from + window) <= 2 * limit - 1
  {
    var until := from + window;
    if AdmittedIn(s.hits, limit, from, until) > 0 {
      AdmittedAreTickets(s.hits, limit, from, until);
      var k := EarliestLife(s.hits, limit, from, until);
      if j: nat :| j < |s.hits| && Admitted(s.hits[j], limit, from, until) && s.hits[j].life != s.hits[k].life {
        WindowAcrossLives(s, limit, window, from, k, j);
        TwoLivesInWindow(s.hits, limit, from, until, s.hits[k].life);
      } else {
        OneLifeInWindow(s.hits, limit, from, until, s.hits[k].life);
      }
    }
  }

  /** When lifetime `life` gave way to the next, or just past now if it has not. */
  function EndOf(s: State, life: nat): int {
    if life + 1 < |s.births| then s.births[life + 1] else s.now + 1
  }

  lemma {:induction false} LaterBirths(s: State, window: int, life: nat)
    requires Spaced(s.births, window) && window > 0 && life < |s.births|
    ensures forall l | life < l < |s.births| :: EndOf(s, life) <= s.births[l]
  {
  }

  lemma {:induction false} LifetimeAdmitsTheLimit(s: State, limit: nat, window: int, life: nat)
    requires Inv(s, window) && window > 0 && life < |s.births|
    ensures AdmittedIn(s.hits, limit, s.births[life], EndOf(s, life)) <= limit
  {
    AdmittedAreTickets(s.hits, limit, s.births[life], EndOf(s, life));
    LaterBirths(s, window, life);
    forall i | 0 <= i < |s.hits| && Admitted(s.hits[i], limit, s.births[life], EndOf(s, life))
      ensures s.hits[i].life == life
    {
      assert InItsLife(s.hits[i], s.births);
    }
    OneLifeInWindow(s.hits, limit, s.births[life], EndOf(s, life), life);
  }

  /** Over every interleaving of requests, late EXPIREs, dying requests and the clock: a lifetime lets through at most
      the limit, lifetimes begin at least a window apart, and any one window lets through fewer than twice the limit. */
  lemma {:induction false} EveryInterleavingIsLimited(now: int, steps: seq<Step>, limit: nat, window: int, from: int)
    requires window > 0 && limit > 0
    ensures var s := Run(Fresh(now), steps, window);
            && Spaced(s.births, window)
            && (forall life | 0 <= life < |s.births| ::
              AdmittedIn(s.hits, limit, s.births[life], EndOf(s, life)) <= limit)
            && AdmittedIn(s.hits, limit, from, from + window) <= 2 * limit - 1
  {
    RunKeepsInv(Fresh(now), steps, window);
    var s := Run(Fresh(now), steps, window);
    forall life | 0 <= life < |s.births| ensures AdmittedIn(s.hits, limit, s.births[life], EndOf(s, life)) <= limit {
      LifetimeAdmitsTheLimit(s, limit, window, life);
    }
    WindowAdmitsUnderTwiceTheLimit(s, limit, window, from);
  }

  // --- The bound is met -----------------------------------------------------------------------------

  function Burst(n: nat): seq<Step> {
    seq(n, _ => Arrive(0))
  }

  lemma {:induction false} RunAppend(s: State, xs: seq<Step>, ys: seq<Step>, window: int)
    ensures Run(s, xs + ys, window) == Run(Run(s, xs, window), ys, window)
    decreases |xs|
  {
    if xs == [] {
      assert xs + ys == ys;
    } else {
      assert (xs + ys)[0] == xs[0] && (xs + ys)[1..] == xs[1..] + ys;
      RunAppend(Next(s, xs[0], window), xs[1..], ys, window);
    }
  }

  lemma {:induction false} BurstIsAdmitted(s: State, n: nat, limit: nat, window: int, from: int)
    requires Alive(s) && s.key.value.count + n <= limit && from <= s.now < from + window
    ensures var t := Run(s, Burst(n), window);
            && t.now == s.now && t.key == Some(s.key.value.(count := s.key.value.count + n))
            && AdmittedIn(t.hits, limit, from, from + window) == AdmittedIn(s.hits, limit, from, from + window) + n
    decreases n
  {
    if n > 0 {
      var s1 := Incr(s, 0);
      assert s1.hits[..|s.hits|] == s.hits;
      assert Burst(n)[1..] == Burst(n - 1);
      BurstIsAdmitted(s1, n - 1, limit, window, from);
    }
  }

  function Opening(window: int): seq<Step>
    requires window > 1
  {
    [Arrive(0), SendExpire(0), Elapse(window - 1)]
  }

  const TURNOVER: seq<Step> := [Elapse(1), Arrive(0)]

  lemma {:induction false} AfterOpening(window: int)
    requires window > 1
    ensures Run(Fresh(0), Opening(window), window) == State(window - 1, Some(Key(0, 1, Some(window))), {}, [0],
            [Hit(0, 0, 1)])
  {
    var a := Next(Fresh(0), Arrive(0), window);
    var b := Next(a, SendExpire(0), window);
    var c := Next(b, Elapse(window - 1), window);
    assert Opening(window)[1..] == [SendExpire(0), Elapse(window - 1)];
    assert Opening(window)[1..][1..] == [Elapse(window - 1)];
    assert Run(b, [Elapse(window - 1)], window) == Run(c, [], window) == c;
    assert b.owing == {};
  }

  lemma {:induction false} AfterTurnover(s: State, limit: nat, window: int, from: int)
    requires s.key.Some? && s.key.value.expiry == Some(s.now + 1) && limit > 0
    requires from <= s.now + 1 < from + window
    ensures var t := Run(s, TURNOVER, window);
            && t.now == s.now + 1 && t.key == Some(Key(|s.births|, 1, None))
            && AdmittedIn(t.hits, limit, from, from + window) == AdmittedIn(s.hits, limit, from, from + window) + 1
  {
  }

  /** One request opens a window; the rest of its quota comes in the last tick, the next quota in the tick after. */
  function WorstCase(limit: nat, window: int): seq<Step>
    requires window > 1 && limit > 0
  {
    Opening(window) + (Burst(limit - 1) + (TURNOVER + Burst(limit - 1)))
  }

  /** The last tick of a lifetime and the first of the next, a full burst in each. */
  lemma {:induction false} BurstsAcrossTheTurn(s: State, limit: nat, window: int, from: int)
    requires s.key == Some(Key(0, 1, Some(s.now + 1))) && limit > 0 && window > 1 && from == s.now
    requires AdmittedIn(s.hits, limit, from, from + window) == 0
    ensures var b := Burst(limit - 1);
            AdmittedIn(Run(s, b + (TURNOVER + b), window).hits, limit, from, from + window) == 2 * limit - 1
  {
    var b := Burst(limit - 1);
    RunAppend(s, b, TURNOVER + b, window);
    BurstIsAdmitted(s, limit - 1, limit, window, from);
    var t := Run(s, b, window);
    RunAppend(t, TURNOVER, b, window);
    AfterTurnover(t, limit, window, from);
    BurstIsAdmitted(Run(t, TURNOVER, window), limit - 1, limit, window, from);
  }

  /** Twice the limit less one really can pass within one window, for every limit. */
  lemma {:induction false} BoundIsMet(limit: nat, window: int)
    requires window > 1 && limit > 0
    ensures AdmittedIn(Run(Fresh(0), WorstCase(limit, window), window).hits, limit, window - 1, 2 * window - 1) ==
            2 * limit - 1
  {
    var b := Burst(limit - 1);
    RunAppend(Fresh(0), Opening(window), b + (TURNOVER + b), window);
    AfterOpening(window);
    var s := Run(Fresh(0), Opening(window), window);
    assert AdmittedIn(s.hits, limit, window - 1, 2 * window - 1) == 0 by { assert s.hits[..0] == []; }
    BurstsAcrossTheTurn(s, limit, window, window - 1);
  }

  // --- A key without a TTL heals ------------------------------------------------------------------------

  lemma {:induction false} DebtRemains(s: State, steps: seq<Step>, r: nat, window: int)
    requires r in s.owing
    requires forall i | 0 <= i < |steps| :: steps[i] != SendExpire(r) && steps[i] != Die(r)
    ensures r in Run(s, steps, window).owing
    decreases |steps|
  {
    if steps != [] {
      assert steps[0] != SendExpire(r) && steps[0] != Die(r);
      assert forall i | 0 <= i < |steps[1..]| :: steps[1..][i] == steps[i + 1];
      DebtRemains(Next(s, steps[0], window), steps[1..], r, window);
    }
  }

  /** A request that finds the key without a TTL, however long its EXPIRE is delayed and whatever happens meanwhile,
      leaves no key without a TTL behind it. */
  lemma {:induction false} NextCompletedRequestSetsATtl(s: State, r: nat, meanwhile: seq<Step>, window: int)
    requires !Alive(s) || s.key.value.expiry.None?
    requires forall i | 0 <= i < |meanwhile| :: meanwhile[i] != SendExpire(r) && meanwhile[i] != Die(r)
    ensures var t := Next(Run(Incr(s, r), meanwhile, window), SendExpire(r), window);
            Alive(t) ==> t.key.value.expiry == Some(t.now + window)
  {
    DebtRemains(Incr(s, r), meanwhile, r, window);
  }

  /** A lifetime that has a TTL keeps one until it ends. */
  lemma {:induction false} TtlIsNeverLost(s: State, steps: seq<Step>, window: int)
    requires Inv(s, window) && window > 0 && s.key.Some? && s.key.value.expiry.Some?
    ensures var t := Run(s, steps, window);
            |s.births| <= |t.births| && t.key.Some? && (|t.births| == |s.births| ==> t.key.value.expiry.Some?)
    decreases |steps|
  {
    if steps != [] {
      var s1 := Next(s, steps[0], window);
      NextKeepsInv(s, steps[0], window);
      if s1.key.value.expiry.Some? {
        TtlIsNeverLost(s1, steps[1..], window);
      } else {
        BirthsOnlyGrow(s1, steps[1..], window);
      }
    }
  }

  lemma {:induction false} BirthsOnlyGrow(s: State, steps: seq<Step>, window: int)
    requires s.key.Some?
    ensures |s.births| <= |Run(s, steps, window).births| && Run(s, steps, window).key.Some?
    decreases |steps|
  {
    if steps != [] {
      BirthsOnlyGrow(Next(s, steps[0], window), steps[1..], window);
    }
  }

  // --- The server and the call ----------------------------------------------------------------------------

  /** The server's view of one identifier. The ghost fields keep the record the bounds are about. */
  class Redis {
    var now: int
    var present: bool
    var count: nat
    var expiry: Option<int>
    ghost var life: nat
    ghost var owing: set<nat>
    ghost var births: seq<int>
    ghost var hits: seq<Hit>

    ghost function View(): State
      reads this
    {
      State(now, if present then Some(Key(life, count, expiry)) else None, owing, births, hits)
    }

    predicate Live()
      reads this
    {
      present && (expiry.None? || now < expiry.value)
    }

    constructor (now: int)
      ensures View() == Fresh(now)
    {
      this.now, present, count, expiry := now, false, 0, None;
      life, owing, births, hits := 0, {}, [], [];
    }

    /** The pipelined INCR and TTL; a key without an expiry reports none. */
    method IncrAndTtl(request: nat) returns (n: nat, ttl: Option<int>)
      modifies this
      ensures View() == Incr(old(View()), request) && Live()
      ensures count == if old(Live()) then old(count) + 1 else 1
      ensures expiry == if old(Live()) then old(expiry) else None
      ensures n == count
      ensures ttl == if expiry.None? then None else Some(expiry.value - now)
    {
      if Live() {
        count := count + 1;
        if expiry.None? { owing := owing + {request}; }
      } else {
        present, count, expiry := true, 1, None;
        life, owing, births := |births|, owing + {request}, births + [now];
      }
      hits := hits + [Hit(now, life, count)];
      n := count;
      ttl := if expiry.None? then None else Some(expiry.value - now);
    }

    method ExpireIn(request: nat, window: int)
      requires request in owing
      modifies this
      ensures View() == Next(old(View()), SendExpire(request), window)
      ensures expiry == if old(Live()) then Some(now + window) else old(expiry)
    {
      if Live() {
        expiry := Some(now + window);
      }
      owing := owing - {request};
    }

    /** One uninterrupted call: it counts the request, leaves the key with a TTL, and answers from the count. */
    method CheckRateLimit(request: nat, limit: int, window: int)
      returns (allowed: bool, remaining: int, retryAfter: int)
      requires window > 0 && Inv(View(), window) && request !in owing
      modifies this
      ensures Inv(View(), window) && View() == Next(Incr(old(View()), request), SendExpire(request), window)
      ensures hits != [] && (allowed <==> Allowed(hits[|hits| - 1], limit))
      ensures count == (if old(Live()) then old(count) + 1 else 1) && (allowed <==> count <= limit)
      ensures remaining == if allowed then limit - count else 0
      ensures Live() && expiry == Some(now + retryAfter) && 0 < retryAfter
      ensures old(expiry.None? || expiry.value <= now + window) ==> retryAfter <= window
    {
      CallKeepsInv(View(), request, window);
      CallLeavesATtl(View(), request, window);
      var n, ttl := IncrAndTtl(request);
      if ttl.None? || ttl.value < 0 {
        ExpireIn(request, window);
        ttl := Some(window);
      }
      allowed := n <= limit;
      remaining := if n <= limit then limit - n else 0;
      retryAfter := ttl.value;
    }
  }
}
