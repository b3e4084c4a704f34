/** What every run of the control arm keeps: the accounts balance, each leader position is answered once,
    and no replay, duplication, reordering or rollback of ticks can change that. */
module CopyControlSafety {
  import opened Wrappers
  import opened Lab
  import opened CopyControl

  function Positions(pairs: seq<Pair>): seq<Position> {
    seq(|pairs|, i requires 0 <= i < |pairs| => pairs[i].pos)
  }

  ghost predicate DistinctLeaders(pairs: seq<Pair>) {
    forall i, j | 0 <= i < j < |pairs| :: pairs[i].leader != pairs[j].leader
  }

  ghost predicate DistinctMints(pairs: seq<Pair>) {
    forall i, j | 0 <= i < j < |pairs| :: pairs[i].pos.mint != pairs[j].pos.mint
  }

  /** Cash plus every stake ever placed is the starting equity plus everything ever paid back. */
  ghost predicate AccountsBalance(b: Book) {
    b.cash + Staked(Positions(b.pairs)) == STARTING_EQUITY + TotalCredited(Positions(b.pairs))
  }

  ghost predicate Inv(b: Book) {
    && Sound(b)
    && b.cash >= 0.0
    && AccountsBalance(b)
    && OpenCount(b.pairs) <= MAX_CONCURRENT
    && DistinctLeaders(b.pairs)
    && DistinctMints(b.pairs)
  }

  const START: Book := Book(STARTING_EQUITY, [])

  /** A pair keeps its identity, its stake and banked money only grow, and once closed it never changes again. */
  ghost predicate Evolves(p: Pair, q: Pair) {
    && q.leader == p.leader && q.leaderMint == p.leaderMint
    && q.pos.mint == p.pos.mint && q.pos.openedAt == p.pos.openedAt
    && q.pos.size >= p.pos.size && q.pos.banked >= p.pos.banked
    && (!p.pos.open ==> q == p)
  }

  ghost predicate Advances(b: Book, c: Book) {
    |b.pairs| <= |c.pairs| && forall i | 0 <= i < |b.pairs| :: Evolves(b.pairs[i], c.pairs[i])
  }

  lemma {:induction false} OpenCountAfterUpdate(pairs: seq<Pair>, i: nat, p: Pair)
    requires i < |pairs| && (p.pos.open ==> pairs[i].pos.open)
    ensures OpenCount(pairs[i := p]) <= OpenCount(pairs)
  {
    if i == 0 {
      assert pairs[0 := p][1..] == pairs[1..];
    } else {
      assert pairs[i := p][1..] == pairs[1..][i - 1 := p];
      OpenCountAfterUpdate(pairs[1..], i - 1, p);
    }
  }

  lemma {:induction false} OpenCountAfterAppend(pairs: seq<Pair>, p: Pair)
    ensures OpenCount(pairs + [p]) <= OpenCount(pairs) + 1
  {
    if pairs == [] {
      assert pairs + [p] == [p];
    } else {
      assert (pairs + [p])[1..] == pairs[1..] + [p];
      OpenCountAfterAppend(pairs[1..], p);
    }
  }

  /** Replacing an open position is safe when the cash moves by exactly what the position records. */
  lemma {:induction false} UpdateIsSafe(b: Book, i: nat, q: Position, change: real)
    requires Inv(b) && i < |b.pairs| && b.pairs[i].pos.open
    requires WellFormed(q)
    requires var p := b.pairs[i].pos;
             q.mint == p.mint && q.openedAt == p.openedAt && q.size >= p.size && q.banked >= p.banked &&
             change == (Credited(q) - Credited(p)) - (q.size - p.size)
    requires b.cash + change >= 0.0
    ensures var c := WithPosition(b, i, q, change); Inv(c) && Advances(b, c)
  {
    var c := WithPosition(b, i, q, change);
    assert Positions(c.pairs) == Positions(b.pairs)[i := q];
    SumsAfterUpdate(Positions(b.pairs), i, q);
    OpenCountAfterUpdate(b.pairs, i, c.pairs[i]);
  }

  lemma {:induction false} OpenIsSafe(b: Book, sig: Signal, m: Market)
    requires Inv(b) && Open(b, sig, m).Done?
    ensures Inv(Open(b, sig, m).book) && Advances(b, Open(b, sig, m).book)
  {
    var c := Open(b, sig, m).book;
    if c != b {
      var p := c.pairs[|b.pairs|];
      assert c.pairs == b.pairs + [p];
      assert Positions(c.pairs) == Positions(b.pairs) + [p.pos];
      SumsAfterAppend(Positions(b.pairs), p.pos);
      OpenCountAfterAppend(b.pairs, p);
    }
  }

  lemma {:induction false} CloseIsSafe(b: Book, sig: Signal, m: Market)
    requires Inv(b)
    ensures var s := ClosePair(b, sig, m); s.Done? && Inv(s.book) && Advances(b, s.book)
  {
    if sig.positionId.Some? {
      var mine := PairedPosition(b.pairs, sig.positionId.value);
      if mine.Some? {
        var p := b.pairs[mine.value].pos;
        var s := CloseManually(p, m.mark(HoldingOf(p)));
        if s.Sold? {
          UpdateIsSafe(b, mine.value, s.position, s.credit);
        }
      }
    }
  }

  lemma {:induction false} ReconcileIsSafe(b: Book, i: nat, m: Market)
    requires Inv(b)
    ensures var s := ReconcileOne(b, i, m); s.Done? && Inv(s.book) && Advances(b, s.book)
  {
    var s := ReconcileOne(b, i, m);
    if s.book != b {
      var p, q := b.pairs[i].pos, s.book.pairs[i].pos;
      UpdateIsSafe(b, i, q, s.book.cash - b.cash);
    }
  }

  lemma {:induction false} SettleIsSafe(b: Book, i: nat, m: Market)
    requires Inv(b)
    ensures var s := SettlePair(b, i, m); s.Done? && Inv(s.book) && Advances(b, s.book)
  {
    var s := SettlePair(b, i, m);
    if s.book != b {
      UpdateIsSafe(b, i, s.book.pairs[i].pos, s.book.cash - b.cash);
    }
  }

  lemma {:induction false} ActIsSafe(b: Book, a: Action)
    requires Inv(b) && Act(b, a).Done?
    ensures Inv(Act(b, a).book) && Advances(b, Act(b, a).book)
  {
    match a
    case Mirroring(sig, m) =>
      if sig.outcome == "opened" && sig.side == "buy" {
        OpenIsSafe(b, sig, m);
      } else if sig.outcome == "closed" && sig.side == "sell" {
        CloseIsSafe(b, sig, m);
      }
    case Reconciling(i, m) => ReconcileIsSafe(b, i, m);
    case Settling(i, m) => SettleIsSafe(b, i, m);
  }

  lemma {:induction false} RunIsSafe(b: Book, acts: seq<Action>)
    requires Inv(b) && Run(b, acts).Done?
    ensures Inv(Run(b, acts).book) && Advances(b, Run(b, acts).book)
    decreases |acts|
  {
    if acts != [] {
      ActIsSafe(b, acts[0]);
      RunIsSafe(Act(b, acts[0]).book, acts[1..]);
    }
  }

  /** Every book any sequence of ticks can reach is sound, and only ever moves forward. */
  lemma {:induction false} EveryHistoryIsSafe(b: Book, ticks: seq<seq<Action>>)
    requires Inv(b)
    ensures Inv(History(b, ticks)) && Advances(b, History(b, ticks))
    decreases |ticks|
  {
    if ticks != [] {
      if Run(b, ticks[0]).Done? {
        RunIsSafe(b, ticks[0]);
      }
      EveryHistoryIsSafe(Transact(b, ticks[0]), ticks[1..]);
    }
  }

  // --- Exactly once ------------------------------------------------------------------

  /** The actions of the ticks that committed, one after another. */
  function Committed(b: Book, ticks: seq<seq<Action>>): seq<Action>
    requires Sound(b)
    decreases |ticks|
  {
    if ticks == [] then []
    else (if Run(b, ticks[0]).Done? then ticks[0] else []) + Committed(Transact(b, ticks[0]), ticks[1..])
  }

  lemma {:induction false} RunAppend(b: Book, xs: seq<Action>, ys: seq<Action>)
    requires Sound(b)
    ensures Run(b, xs).Raised? ==> Run(b, xs + ys).Raised?
    ensures Run(b, xs).Done? ==> Run(b, xs + ys) == Run(Run(b, xs).book, ys)
    decreases |xs|
  {
    if xs == [] {
      assert xs + ys == ys;
    } else {
      assert (xs + ys)[0] == xs[0] && (xs + ys)[1..] == xs[1..] + ys;
      if Act(b, xs[0]).Done? {
        RunAppend(Act(b, xs[0]).book, xs[1..], ys);
      }
    }
  }

  /** Aborted ticks leave no trace: the book is the one the committed actions alone produce. */
  lemma {:induction false} HistoryIsCommittedRun(b: Book, ticks: seq<seq<Action>>)
    requires Sound(b)
    ensures Run(b, Committed(b, ticks)).Done? && Run(b, Committed(b, ticks)).book == History(b, ticks)
    decreases |ticks|
  {
    if ticks != [] {
      var c := Transact(b, ticks[0]);
      HistoryIsCommittedRun(c, ticks[1..]);
      if Run(b, ticks[0]).Done? {
        RunAppend(b, ticks[0], Committed(c, ticks[1..]));
      } else {
        assert Committed(b, ticks) == Committed(c, ticks[1..]);
      }
    }
  }

  /** How often a signal about `leader` had the effect `effect`. */
  function EffectCount(b: Book, acts: seq<Action>, leader: nat, effect: Outcome): nat
    requires Sound(b) && Run(b, acts).Done?
    decreases |acts|
  {
    if acts == [] then 0
    else
      var s := Act(b, acts[0]);
      (if acts[0].Mirroring? && acts[0].sig.positionId == Some(leader) && s.outcome == effect then 1 else 0)
      + EffectCount(s.book, acts[1..], leader, effect)
  }

  ghost predicate HasClosedPair(b: Book, leader: nat) {
    exists i | 0 <= i < |b.pairs| :: b.pairs[i].leader == leader && !b.pairs[i].pos.open
  }

  lemma {:induction false} PairsAreNeverForgotten(b: Book, c: Book, leader: nat)
    requires Advances(b, c)
    ensures AnyPaired(b.pairs, leader) ==> AnyPaired(c.pairs, leader)
    ensures HasClosedPair(b, leader) ==> HasClosedPair(c, leader)
  {
  }

  /** A signal opens only where nothing was ever paired, and closes only where nothing was closed. */
  lemma {:induction false} EffectIsNew(b: Book, sig: Signal, m: Market, leader: nat)
    requires Inv(b) && Mirror(b, sig, m).Done? && sig.positionId == Some(leader)
    ensures var s := Mirror(b, sig, m);
            && (s.outcome == Opened ==> !AnyPaired(b.pairs, leader) && AnyPaired(s.book.pairs, leader))
            && (s.outcome == ClosedPair ==> !HasClosedPair(b, leader) && HasClosedPair(s.book, leader))
  {
    var s := Mirror(b, sig, m);
    if s.outcome == Opened {
      assert s.book.pairs[|b.pairs|].leader == leader;
    }
    if s.outcome == ClosedPair {
      var mine := PairedPosition(b.pairs, leader).value;
      assert s.book.pairs[mine].leader == leader && !s.book.pairs[mine].pos.open;
    }
  }

  lemma {:induction false} EffectsHappenOnce(b: Book, acts: seq<Action>, leader: nat)
    requires Inv(b) && Run(b, acts).Done?
    ensures EffectCount(b, acts, leader, Opened) <= if AnyPaired(b.pairs, leader) then 0 else 1
    ensures EffectCount(b, acts, leader, ClosedPair) <= if HasClosedPair(b, leader) then 0 else 1
    decreases |acts|
  {
    if acts != [] {
      var s := Act(b, acts[0]);
      ActIsSafe(b, acts[0]);
      EffectsHappenOnce(s.book, acts[1..], leader);
      PairsAreNeverForgotten(b, s.book, leader);
      if acts[0].Mirroring? && acts[0].sig.positionId == Some(leader) {
        EffectIsNew(b, acts[0].sig, acts[0].market, leader);
      }
    }
  }

  /** Over any ticks whatever, a leader position is opened against at most once and closed by signal at most once. */
  lemma {:induction false} EachLeaderIsAnsweredOnce(ticks: seq<seq<Action>>, leader: nat)
    ensures Inv(START)
    ensures Run(START, Committed(START, ticks)).Done?
    ensures EffectCount(START, Committed(START, ticks), leader, Opened) <= 1
    ensures EffectCount(START, Committed(START, ticks), leader, ClosedPair) <= 1
  {
    HistoryIsCommittedRun(START, ticks);
    EffectsHappenOnce(START, Committed(START, ticks), leader);
  }

  // --- A close in the batch leaves nothing open ------------------------------------------

  predicate IsClose(a: Action, leader: nat) {
    a.Mirroring? && a.sig.outcome == "closed" && a.sig.side == "sell" && a.sig.positionId == Some(leader)
  }

  predicate IsOpen(a: Action, leader: nat) {
    a.Mirroring? && a.sig.outcome == "opened" && a.sig.side == "buy" && a.sig.positionId == Some(leader)
  }

  ghost predicate NothingOpenFor(b: Book, leader: nat) {
    forall i | 0 <= i < |b.pairs| :: !Answers(b.pairs[i], leader)
  }

  lemma {:induction false} StaysClosed(b: Book, acts: seq<Action>, leader: nat)
    requires Inv(b) && Run(b, acts).Done? && NothingOpenFor(b, leader)
    requires forall k | 0 <= k < |acts| :: !IsOpen(acts[k], leader)
    ensures NothingOpenFor(Run(b, acts).book, leader)
    decreases |acts|
  {
    if acts != [] {
      var c := Act(b, acts[0]).book;
      ActIsSafe(b, acts[0]);
      forall i | 0 <= i < |c.pairs| ensures !Answers(c.pairs[i], leader) {
        if i < |b.pairs| {
          assert Evolves(b.pairs[i], c.pairs[i]);
          assert !Answers(b.pairs[i], leader);
        }
      }
      forall k | 0 <= k < |acts[1..]| ensures !IsOpen(acts[1..][k], leader) { assert acts[1..][k] == acts[k + 1]; }
      StaysClosed(c, acts[1..], leader);
    }
  }

  /** Every open pair answering the leader can be marked. */
  ghost predicate Closable(b: Book, leader: nat, m: Market) {
    forall i | 0 <= i < |b.pairs| && Answers(b.pairs[i], leader) :: m.mark(HoldingOf(b.pairs[i].pos)).Some?
  }

  /** A close leaves nothing of the leader's open exactly when the pair it closes could be marked. */
  lemma {:induction false} CloseEmptiesExactlyWhenMarkable(b: Book, sig: Signal, m: Market, leader: nat)
    requires Inv(b) && sig.positionId == Some(leader)
    ensures NothingOpenFor(ClosePair(b, sig, m).book, leader) <==> Closable(b, leader, m)
  {
    var mine := PairedPosition(b.pairs, leader);
    if mine.Some? {
      assert Answers(b.pairs[mine.value], leader);
      assert forall j | 0 <= j < |b.pairs| && j != mine.value :: b.pairs[j].leader != leader;
    }
  }

  /** Once a leader's close is acted on at a price, nothing of his is open at the end of the pass,
      provided no opening signal of the same position comes after it. */
  lemma {:induction false} CloseInBatchLeavesNothingOpen(b: Book, acts: seq<Action>, j: nat, leader: nat)
    requires Inv(b) && Run(b, acts).Done?
    requires j < |acts| && IsClose(acts[j], leader)
    requires Run(b, acts[..j]).Done? && Closable(Run(b, acts[..j]).book, leader, acts[j].market)
    requires forall k | j < k < |acts| :: !IsOpen(acts[k], leader)
    ensures NothingOpenFor(Run(b, acts).book, leader)
  {
    var c, rest := Run(b, acts[..j]).book, acts[j..];
    assert acts == acts[..j] + rest;
    RunAppend(b, acts[..j], rest);
    RunIsSafe(b, acts[..j]);
    var d := Act(c, acts[j]).book;
    CloseEmptiesExactlyWhenMarkable(c, acts[j].sig, acts[j].market, leader);
    ActIsSafe(c, acts[j]);
    forall k | 0 <= k < |rest[1..]| ensures !IsOpen(rest[1..][k], leader) { assert rest[1..][k] == acts[j + 1 + k]; }
    StaysClosed(d, rest[1..], leader);
  }

  // --- Capital --------------------------------------------------------------------------

  ghost predicate Capped(b: Book, leaders: map<nat, LeaderPosition>) {
    forall i | 0 <= i < |b.pairs| ::
      b.pairs[i].leader in leaders && b.pairs[i].pos.size <= leaders[b.pairs[i].leader].size
  }

  ghost predicate GrownFrom(earlier: map<nat, LeaderPosition>, later: map<nat, LeaderPosition>) {
    forall id | id in earlier :: id in later && 0.0 < earlier[id].size <= later[id].size
  }

  ghost predicate LeadersOnlyGrow(acts: seq<Action>) {
    forall i, j | 0 <= i <= j < |acts| :: GrownFrom(acts[i].market.leaders, acts[j].market.leaders)
  }

  lemma {:induction false} ActStaysCapped(b: Book, a: Action)
    requires Inv(b) && Act(b, a).Done? && Capped(b, a.market.leaders) && GrownFrom(a.market.leaders, a.market.leaders)
    ensures Capped(Act(b, a).book, a.market.leaders)
  {
    var c := Act(b, a).book;
    forall i | 0 <= i < |c.pairs|
      ensures c.pairs[i].leader in a.market.leaders && c.pairs[i].pos.size <= a.market.leaders[c.pairs[i].leader].size
    {
    }
  }

  /** While leader stakes are positive and only grow, no pair ever holds more capital than its leader. */
  lemma {:induction false} CapitalNeverExceedsTheLeader(b: Book, acts: seq<Action>)
    requires Inv(b) && Run(b, acts).Done? && acts != []
    requires LeadersOnlyGrow(acts) && Capped(b, acts[0].market.leaders)
    ensures Capped(Run(b, acts).book, acts[|acts| - 1].market.leaders)
    decreases |acts|
  {
    var c := Act(b, acts[0]).book;
    assert GrownFrom(acts[0].market.leaders, acts[0].market.leaders);
    ActStaysCapped(b, acts[0]);
    ActIsSafe(b, acts[0]);
    if |acts| > 1 {
      assert GrownFrom(acts[0].market.leaders, acts[1].market.leaders);
      assert acts[1..][0] == acts[1] && acts[1..][|acts| - 2] == acts[|acts| - 1];
      assert LeadersOnlyGrow(acts[1..]) by {
        forall i, j | 0 <= i <= j < |acts[1..]|
          ensures GrownFrom(acts[1..][i].market.leaders, acts[1..][j].market.leaders)
        {
          assert acts[1..][i] == acts[i + 1] && acts[1..][j] == acts[j + 1];
        }
      }
      CapitalNeverExceedsTheLeader(c, acts[1..]);
    } else {
      assert acts[1..] == [];
    }
  }

  /** The same over whole histories, aborted ticks included. */
  lemma {:induction false} NoHistoryOutspendsTheLeader(ticks: seq<seq<Action>>)
    ensures Sound(START)
    ensures var acts := Committed(START, ticks);
            acts != [] && LeadersOnlyGrow(acts) ==> Capped(History(START, ticks), acts[|acts| - 1].market.leaders)
  {
    var acts := Committed(START, ticks);
    HistoryIsCommittedRun(START, ticks);
    if acts != [] && LeadersOnlyGrow(acts) {
      CapitalNeverExceedsTheLeader(START, acts);
    }
  }

  // --- A draw that aborts the tick ---------------------------------------------------------

  /** The token an opening signal would buy, when every earlier check lets it through. */
  function Drawn(b: Book, sig: Signal, m: Market): Option<Candidate> {
    if sig.positionId.None? || sig.positionId.value !in m.leaders || AnyPaired(b.pairs, sig.positionId.value) then None
    else
      var size := OpeningSize(m.leaders[sig.positionId.value]);
      var candidates := Eligible(m.pool, HeldMints(b.pairs) + {sig.mint});
      if b.cash < size || OpenCount(b.pairs) >= MAX_CONCURRENT || candidates == [] then None
      else
        var c := Pick(candidates, sig.signature, m.draw);
        if BuyQuantity(size, c.price, c.liquidity).Some? then Some(c) else None
  }

  /** The draw excludes what is held now, but a token may be held once ever: opening aborts the tick
      exactly when it draws the token of a pair that has already closed. */
  lemma {:induction false} OpenRaisesExactly(b: Book, sig: Signal, m: Market)
    requires Inv(b)
    ensures Open(b, sig, m).Raised? <==>
            Drawn(b, sig, m).Some? &&
            exists i | 0 <= i < |b.pairs| :: b.pairs[i].pos.mint == Drawn(b, sig, m).value.mint && !b.pairs[i].pos.open
  {
  }

  /** While every tick aborts, whatever each one reads, the arm stands still. */
  lemma {:induction false} AbortedTicksChangeNothing(b: Book, ticks: seq<seq<Action>>)
    requires Sound(b) && forall k | 0 <= k < |ticks| :: Run(b, ticks[k]).Raised?
    ensures History(b, ticks) == b
    decreases |ticks|
  {
    if ticks != [] {
      forall k | 0 <= k < |ticks[1..]| ensures Run(b, ticks[1..][k]).Raised? { assert ticks[1..][k] == ticks[k + 1]; }
      AbortedTicksChangeNothing(b, ticks[1..]);
    }
  }

  lemma {:induction false} RunOne(b: Book, a: Action)
    requires Sound(b)
    ensures Run(b, [a]).Raised? == Act(b, a).Raised?
    ensures Act(b, a).Done? ==> Run(b, [a]).book == Act(b, a).book == Transact(b, [a])
  {
  }

  /** A market with one token in it, at a dollar, and two leader positions of ten dollars of which `left` is left.
      A print over twenty times the entry price is not believed. */
  function OneToken(left: real := 1.0): Market {
    var leader := LeaderPosition(10.0, 1.0, left);
    Market(0, map[1 := leader, 2 := leader], [Candidate("A", 1.0, 1000.0)], (s, n) => 0,
           _ => None, (h: Holding) => if 1.0 > h.entryPrice * 20.0 then None else Some(Mark(1.0, 1000.0, false)))
  }

  function OpenSignal(leader: nat): Signal { Signal("s", "buy", "opened", Some(leader), "L") }
  function CloseSignal(leader: nat): Signal { Signal("s", "sell", "closed", Some(leader), "L") }

  lemma {:induction false} OnlyTokenIsDrawn(b: Book, leader: nat)
    requires Sound(b) && leader in {1, 2} && !AnyPaired(b.pairs, leader)
    requires b.cash >= 10.0 && OpenCount(b.pairs) < MAX_CONCURRENT && "A" !in HeldMints(b.pairs)
    ensures var s := Act(b, Mirroring(OpenSignal(leader), OneToken()));
            if EverHeld(b.pairs, "A") then s.Raised?
            else s.Done? && s.book.cash == b.cash - 10.0 && |s.book.pairs| == |b.pairs| + 1 &&
                 s.book.pairs[|b.pairs|].leader == leader && s.book.pairs[|b.pairs|].pos.open &&
                 var p := s.book.pairs[|b.pairs|].pos;
                 p.mint == "A" && p.openedAt == 0 && p.entryPrice == 1.0 && p.size == 10.0 &&
                 p.remaining == p.quantity && p.banked == 0.0
  {
  }

  lemma {:induction false} TickOf(b: Book, a: Action, rest: seq<seq<Action>>)
    requires Sound(b) && Act(b, a).Done?
    ensures History(b, [[a]] + rest) == History(Act(b, a).book, rest)
  {
    RunOne(b, a);
    assert ([[a]] + rest)[1..] == rest;
  }

  /** The only pair, opened at a dollar in the one token. */
  ghost predicate OnePair(b: Book) {
    Inv(b) && |b.pairs| == 1 && b.pairs[0].leader == 1 && b.pairs[0].pos.open && b.cash >= 90.0 &&
    var p := b.pairs[0].pos; p.mint == "A" && p.entryPrice == 1.0 && p.size == 10.0 && p.openedAt == 0
  }

  const OPEN_ONE: Action := Mirroring(OpenSignal(1), OneToken())
  const CLOSE_ONE: Action := Mirroring(CloseSignal(1), OneToken())

  lemma {:induction false} FirstOpening()
    ensures var s := Act(START, OPEN_ONE);
            s.Done? && OnePair(s.book) && s.book.pairs[0].pos.remaining == s.book.pairs[0].pos.quantity
  {
    OnlyTokenIsDrawn(START, 1);
    ActIsSafe(START, OPEN_ONE);
  }

  lemma {:induction false} FirstClose(b: Book)
    requires OnePair(b)
    ensures var s := Act(b, CLOSE_ONE);
            && s.Done? && Inv(s.book) && s.book.cash >= 90.0 && |s.book.pairs| == 1 && s.book.pairs[0].leader == 1
            && !s.book.pairs[0].pos.open && s.book.pairs[0].pos.mint == "A"
  {
    assert PairedPosition(b.pairs, 1) == Some(0);
    CloseIsSafe(b, CloseSignal(1), OneToken());
  }

  /** Such a book is reachable: open in the only token there is, close, and the next opening signal aborts. */
  lemma {:induction false} ReusedTokenAbortsTheTick()
    ensures exists ticks: seq<seq<Action>>, sig: Signal, m: Market ::
              Inv(History(START, ticks)) && Run(History(START, ticks), [Mirroring(sig, m)]).Raised?
  {
    FirstOpening();
    var b1 := Act(START, OPEN_ONE).book;
    FirstClose(b1);
    var b2 := Act(b1, CLOSE_ONE).book;
    TickOf(b1, CLOSE_ONE, []);
    TickOf(START, OPEN_ONE, [[CLOSE_ONE]] + []);
    OnlyTokenIsDrawn(b2, 2);
    RunOne(b2, Mirroring(OpenSignal(2), OneToken()));
    assert History(START, [[OPEN_ONE]] + ([[CLOSE_ONE]] + [])) == b2;
  }

  // --- The reported equity ------------------------------------------------------------------

  function SettleAll(b: Book, upTo: nat, m: Market): (r: Book)
    requires Sound(b) && upTo <= |b.pairs|
    ensures Sound(r) && |r.pairs| == |b.pairs|
  {
    if upTo == 0 then b else SettlePair(SettleAll(b, upTo - 1, m), upTo - 1, m).book
  }

  /** The first `upTo` pairs are stored at this mark. */
  ghost predicate MarkedUpTo(pairs: seq<Pair>, upTo: nat, mark: Holding -> Option<Mark>) {
    upTo <= |pairs| && forall i | 0 <= i < upTo :: MarkedAt(pairs[i].pos, mark)
  }

  lemma {:induction false} SettleMarksEveryPair(b: Book, upTo: nat, m: Market)
    requires Sound(b) && upTo <= |b.pairs|
    requires forall i | 0 <= i < |b.pairs| && b.pairs[i].pos.open :: m.mark(HoldingOf(b.pairs[i].pos)).Some?
    ensures var r := SettleAll(b, upTo, m);
            && MarkedUpTo(r.pairs, upTo, m.mark)
            && (forall i | upTo <= i < |b.pairs| :: r.pairs[i] == b.pairs[i])
  {
    if upTo > 0 {
      SettleMarksEveryPair(b, upTo - 1, m);
    }
  }

  /** After a settlement that could price the whole book, the equity the arms are compared on exceeds cash plus what
      the book would fetch by exactly the money that trims of still open pairs have already paid into cash. */
  lemma {:induction false} ReportedEquityCountsTrimsTwice(b: Book, m: Market)
    requires Inv(b)
    requires forall i | 0 <= i < |b.pairs| && b.pairs[i].pos.open :: m.mark(HoldingOf(b.pairs[i].pos)).Some?
    ensures var ps := Positions(SettleAll(b, |b.pairs|, m).pairs);
            && OpenValue(ps) == ExecutableOpenValue(ps, m.mark) + BankedWhileOpen(ps)
            && (OpenValue(ps) == ExecutableOpenValue(ps, m.mark) <==>
                forall i | 0 <= i < |ps| :: ps[i].open ==> ps[i].banked == 0.0)
  {
    var r := SettleAll(b, |b.pairs|, m);
    SettleMarksEveryPair(b, |b.pairs|, m);
    forall i | 0 <= i < |r.pairs|
      ensures MarkedAt(Positions(r.pairs)[i], m.mark) && Positions(r.pairs)[i].banked >= 0.0
    {
      assert PairOk(r.pairs[i]) && MarkedUpTo(r.pairs, |r.pairs|, m.mark);
    }
    ReportedIsExecutablePlusBanked(Positions(r.pairs), m.mark);
    BankedWhileOpenIsZero(Positions(r.pairs));
  }

  /** Three ticks of one action each. */
  lemma {:induction false} ThreeTicks(b: Book, x: Action, y: Action, z: Action)
    requires Sound(b) && Act(b, x).Done? && Act(Act(b, x).book, y).Done? && Act(Act(Act(b, x).book, y).book, z).Done?
    ensures History(b, [[x]] + ([[y]] + ([[z]] + []))) == Act(Act(Act(b, x).book, y).book, z).book
  {
    var c := Act(b, x).book;
    var d := Act(c, y).book;
    TickOf(d, z, []);
    TickOf(c, y, [[z]] + []);
    TickOf(b, x, [[y]] + ([[z]] + []));
  }

  ghost predicate OverstatedBook(b: Book, m: Market) {
    Inv(b) && OpenValue(Positions(b.pairs)) > ExecutableOpenValue(Positions(b.pairs), m.mark)
  }

  /** Such a book is reachable: open a pair, let the leader sell half, and the reported value of the book is above
      what it would fetch. */
  lemma {:induction false} TrimmedPairIsOverstated()
    ensures exists ticks: seq<seq<Action>>, m: Market :: OverstatedBook(History(START, ticks), m)
  {
    var m := OneToken(0.5);
    var trim, settle := Reconciling(0, m), Settling(0, m);
    FirstOpening();
    var b1 := Act(START, OPEN_ONE).book;
    HalfIsTrimmed(b1);
    SettledTrimIsOverstated(Act(b1, trim).book);
    ThreeTicks(START, OPEN_ONE, trim, settle);
    assert OverstatedBook(History(START, [[OPEN_ONE]] + ([[trim]] + ([[settle]] + []))), m);
  }

  lemma {:induction false} HalfIsTrimmed(b: Book)
    requires OnePair(b) && b.pairs[0].pos.remaining == b.pairs[0].pos.quantity
    ensures var s := Act(b, Reconciling(0, OneToken(0.5)));
            s.Done? && OnePair(s.book) && s.book.pairs[0].pos.banked > 0.0
  {
    var m, p := OneToken(0.5), b.pairs[0].pos;
    WholeShare(p.quantity);
    TrimPays(b, 0, LeaderPosition(10.0, 1.0, 0.5), m);
    ReconcileIsSafe(b, 0, m);
  }

  lemma {:induction false} WholeShare(quantity: real)
    requires quantity > 0.0
    ensures Share(quantity, quantity) == 1.0 && Share(0.5, 1.0) == 0.5
  {
  }

  lemma {:induction false} TrimPays(b: Book, i: nat, leader: LeaderPosition, m: Market)
    requires Sound(b) && i < |b.pairs| && b.pairs[i].pos.open && leader.quantity > 0.0
    requires var p := b.pairs[i].pos;
             && 0.0 < Share(leader.remaining, leader.quantity) < Share(p.remaining, p.quantity)
             && m.mark(HoldingOf(p)).Some? && !m.mark(HoldingOf(p)).value.dead
             && m.mark(HoldingOf(p)).value.price > 0.0 && m.mark(HoldingOf(p)).value.liquidity > 0.0
    ensures var s := MatchExposure(b, i, leader, m);
            && s.Done? && |s.book.pairs| == |b.pairs|
            && s.book.pairs[i].leader == b.pairs[i].leader && s.book.pairs[i].pos.open
            && s.book.pairs[i].pos.banked > b.pairs[i].pos.banked
            && s.book.pairs[i].pos.entryPrice == b.pairs[i].pos.entryPrice
            && SameTrade(b.pairs[i].pos, s.book.pairs[i].pos)
  {
  }

  lemma {:induction false} SettledTrimIsOverstated(b: Book)
    requires OnePair(b) && b.pairs[0].pos.banked > 0.0
    ensures var s := Act(b, Settling(0, OneToken(0.5))); s.Done? && OverstatedBook(s.book, OneToken(0.5))
  {
    var m := OneToken(0.5);
    var c := Act(b, Settling(0, m)).book;
    ActIsSafe(b, Settling(0, m));
    ReportedEquityCountsTrimsTwice(b, m);
    assert c == SettleAll(b, 1, m);
    assert Positions(c.pairs)[0] == c.pairs[0].pos;
    BankedWhileOpenIsZero(Positions(c.pairs));
  }
}
