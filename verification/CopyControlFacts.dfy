/** What each step of the control arm does to the columns it writes, and the laws over runs that follow: units leave a
    pair by trims alone. */
module CopyControlFacts {
  import opened Wrappers
  import opened Lab
  import opened CopyControl
  import opened CopyControlSafety

  /** Every pair but one is as it was. */
  ghost predicate OnlyPair(b: Book, c: Book, i: nat) {
    && |c.pairs| == |b.pairs| && i < |b.pairs|
    && (forall j | 0 <= j < |b.pairs| && j != i :: c.pairs[j] == b.pairs[j])
    && c.pairs[i].leader == b.pairs[i].leader && c.pairs[i].leaderMint == b.pairs[i].leaderMint
  }

  /** The rows that are open. */
  function OpenRows(pairs: seq<Pair>): set<nat> {
    set i: nat | i < |pairs| && pairs[i].pos.open
  }

  /** The open count is the number of open rows. */
  lemma {:induction false} OpenCountCounts(pairs: seq<Pair>)
    ensures OpenCount(pairs) == |OpenRows(pairs)|
    decreases |pairs|
  {
    if pairs != [] {
      var n := |pairs| - 1;
      OpenCountCounts(pairs[..n]);
      OpenCountLast(pairs);
      assert OpenRows(pairs) == if pairs[n].pos.open then OpenRows(pairs[..n]) + {n} else OpenRows(pairs[..n]);
    }
  }

  lemma {:induction false} OpenCountLast(pairs: seq<Pair>)
    requires pairs != []
    ensures OpenCount(pairs) == OpenCount(pairs[..|pairs| - 1]) + if pairs[|pairs| - 1].pos.open then 1 else 0
  {
    if |pairs| > 1 {
      assert pairs[1..][..|pairs| - 2] == pairs[..|pairs| - 1][1..];
      OpenCountLast(pairs[1..]);
    }
  }

  // --- Opening ---------------------------------------------------------------------------------

  /** The stake an opening signal asks for: the leader's size, or ten dollars when it has none. */
  function StakeFor(leader: LeaderPosition): real {
    if leader.size != 0.0 then leader.size else 10.0
  }

  /** A pair is opened exactly when the leader position is new and known, its stake is affordable, fewer than ten pairs
      are open, and the token drawn has a price and was never held; then this is the pair, and what it costs. */
  lemma {:induction false} OpeningWrites(b: Book, sig: Signal, m: Market)
    requires Inv(b) && Open(b, sig, m).Done? && Open(b, sig, m).outcome == Opened
    ensures sig.positionId.Some? && sig.positionId.value in m.leaders
    ensures var c, id, n := Open(b, sig, m).book, sig.positionId.value, |b.pairs|;
            var stake := StakeFor(m.leaders[id]);
            && (forall i | 0 <= i < n :: b.pairs[i].leader != id)
            && |OpenRows(b.pairs)| < 10 && stake <= b.cash && c.cash == b.cash - stake
            && |c.pairs| == n + 1 && c.pairs[..n] == b.pairs
            && var p := c.pairs[n];
            && p.leader == id && p.leaderMint == sig.mint && p.pos.mint != sig.mint
            && p.pos.open && p.pos.size == stake && p.pos.openedAt == m.now
            && p.pos.remaining == p.pos.quantity && p.pos.banked == 0.0
            && p.pos.lastValue == Some(stake) && p.pos.exitProceeds == None
            && (forall i | 0 <= i < n :: b.pairs[i].pos.mint != p.pos.mint)
            && exists x | x in m.pool :: x.mint == p.pos.mint && x.price == p.pos.entryPrice &&
                                         BuyQuantity(stake, x.price, x.liquidity) == Some(p.pos.quantity)
  {
    OpenCountCounts(b.pairs);
    var c := Open(b, sig, m).book;
    var stake := StakeFor(m.leaders[sig.positionId.value]);
    var x := Pick(Eligible(m.pool, HeldMints(b.pairs) + {sig.mint}), sig.signature, m.draw);
    assert x in m.pool && x.mint !in HeldMints(b.pairs) + {sig.mint};
    assert c.pairs == b.pairs + [c.pairs[|b.pairs|]];
    assert BuyQuantity(stake, x.price, x.liquidity) == Some(c.pairs[|b.pairs|].pos.quantity);
  }

  /** The token an opening draws: the one the signature picks among those neither held now nor the leader's. */
  lemma {:induction false} OpeningDrawsBySignature(b: Book, sig: Signal, m: Market)
    requires Inv(b) && Open(b, sig, m).Done? && Open(b, sig, m).outcome == Opened
    ensures var pool := Eligible(m.pool, HeldMints(b.pairs) + {sig.mint});
            && pool != []
            && Open(b, sig, m).book.pairs[|b.pairs|].pos.mint == pool[m.draw(sig.signature, |pool|) % |pool|].mint
  {
  }

  /** Why an opening signal opens nothing, in the order the reasons are tried. */
  lemma {:induction false} OpeningRefuses(b: Book, sig: Signal, m: Market)
    requires Inv(b)
    ensures var s, id := Open(b, sig, m), sig.positionId;
            var known := id.Some? && id.value in m.leaders;
            var answered := id.Some? && exists i | 0 <= i < |b.pairs| :: b.pairs[i].leader == id.value;
            && (s.Done? && s.outcome != Opened ==> s.book == b)
            && (s == Done(b, AlreadyMirrored) <==> answered)
            && (s == Done(b, LeaderPositionMissing) <==> !answered && !known)
            && (s == Done(b, InsufficientCash) <==> !answered && known && b.cash < StakeFor(m.leaders[id.value]))
            && (s == Done(b, MaxConcurrent) <==>
                  !answered && known && b.cash >= StakeFor(m.leaders[id.value]) && |OpenRows(b.pairs)| >= 10)
            && (s == Done(b, NoCandidates) ==> forall x <- m.pool :: x.mint in HeldMints(b.pairs) + {sig.mint})
  {
    OpenCountCounts(b.pairs);
    var pool := Eligible(m.pool, HeldMints(b.pairs) + {sig.mint});
    if Open(b, sig, m) == Done(b, NoCandidates) {
      forall x | x in m.pool ensures x.mint in HeldMints(b.pairs) + {sig.mint} {
        assert x in pool <==> x.mint !in HeldMints(b.pairs) + {sig.mint};
      }
    }
  }

  // --- Topping up --------------------------------------------------------------------------------

  lemma {:induction false} BlendedPrice(size: real, quantity: real)
    requires quantity > 0.0
    ensures size / quantity * quantity == size
  {
  }

  /** A visit tops its pair up exactly when the leader's capital is ahead, the difference is in cash, and the token has
      a price; then the pair holds what it held and everything the difference buys. */
  lemma {:induction false} TopUpWrites(b: Book, i: nat, m: Market)
    requires Sound(b)
    ensures var s := ReconcileOne(b, i, m);
            (s.Done? && s.outcome == Added) <==>
            && i < |b.pairs| && b.pairs[i].pos.open && b.pairs[i].leader in m.leaders
            && var p, leader := b.pairs[i].pos, m.leaders[b.pairs[i].leader];
            && leader.size > p.size && b.cash >= leader.size - p.size && m.quote(p.mint).Some?
            && m.quote(p.mint).value.price > 0.0 && m.quote(p.mint).value.liquidity > 0.0
    ensures var s := ReconcileOne(b, i, m);
            s.Done? && s.outcome == Added ==>
              && OnlyPair(b, s.book, i) && b.pairs[i].leader in m.leaders && m.quote(b.pairs[i].pos.mint).Some?
              && var p, q, leader := b.pairs[i].pos, s.book.pairs[i].pos, m.leaders[b.pairs[i].leader];
              var quote := m.quote(p.mint).value;
              var bought := BuyQuantity(leader.size - p.size, quote.price, quote.liquidity);
              && bought.Some?
              && s.book.cash == b.cash - (leader.size - p.size)
              && q.size == leader.size
              && q.quantity == p.quantity + bought.value && q.remaining == p.remaining + bought.value
              && q.entryPrice * q.quantity == q.size && q.lastValue == Some(q.size)
              && q.mint == p.mint && q.openedAt == p.openedAt && q.banked == p.banked
              && q.open && q.exitProceeds == p.exitProceeds
  {
    var s := ReconcileOne(b, i, m);
    if s.Done? && s.outcome == Added {
      assert PairOk(b.pairs[i]);
      BlendedPrice(s.book.pairs[i].pos.size, s.book.pairs[i].pos.quantity);
    }
  }

  /** A pair that holds all it ever bought still does after a top-up. */
  lemma {:induction false} TopUpSellsNothing(b: Book, i: nat, m: Market)
    requires Sound(b) && ReconcileOne(b, i, m).Done? && ReconcileOne(b, i, m).outcome == Added
    ensures i < |b.pairs| && |ReconcileOne(b, i, m).book.pairs| == |b.pairs|
    ensures UnitsSold(ReconcileOne(b, i, m).book, i) == UnitsSold(b, i)
    ensures b.pairs[i].pos.remaining == b.pairs[i].pos.quantity ==>
            ReconcileOne(b, i, m).book.pairs[i].pos.remaining == ReconcileOne(b, i, m).book.pairs[i].pos.quantity
  {
    TopUpWrites(b, i, m);
  }

  // --- Trimming ------------------------------------------------------------------------------------

  /** A visit sells exactly when the leader's capital is not ahead, his share is smaller but not nothing, and the pair
      has a live mark; then it sells down to his share, and is paid for that slice alone. */
  lemma {:induction false} TrimWrites(b: Book, i: nat, m: Market)
    requires Sound(b)
    ensures var s := ReconcileOne(b, i, m);
            (s.Done? && s.outcome == Trimmed) <==>
            && i < |b.pairs| && b.pairs[i].pos.open && b.pairs[i].leader in m.leaders
            && var p, leader := b.pairs[i].pos, m.leaders[b.pairs[i].leader];
            && leader.size <= p.size && leader.quantity != 0.0
            && 0.0 < leader.remaining / leader.quantity < p.remaining / p.quantity
            && m.mark(HoldingOf(p)).Some? && !m.mark(HoldingOf(p)).value.dead
    ensures var s := ReconcileOne(b, i, m);
            s.Done? && s.outcome == Trimmed ==>
              && OnlyPair(b, s.book, i) && b.pairs[i].leader in m.leaders && m.mark(HoldingOf(b.pairs[i].pos)).Some?
              && var p, q, leader := b.pairs[i].pos, s.book.pairs[i].pos, m.leaders[b.pairs[i].leader];
              var mark := m.mark(HoldingOf(p)).value;
              var paid := SellProceeds(p.remaining - q.remaining, mark.price, mark.liquidity);
              && leader.quantity != 0.0 && p.quantity > 0.0
              && q.remaining == leader.remaining / leader.quantity * p.quantity && q.remaining < p.remaining
              && s.book.cash == b.cash + paid && q == p.(remaining := q.remaining, banked := p.banked + paid)
  {
    var s := ReconcileOne(b, i, m);
    if i < |b.pairs| && b.pairs[i].leader in m.leaders && m.leaders[b.pairs[i].leader].quantity != 0.0 {
      var p, leader := b.pairs[i].pos, m.leaders[b.pairs[i].leader];
      assert PairOk(b.pairs[i]);
      var ours, theirs := Share(p.remaining, p.quantity), Share(leader.remaining, leader.quantity);
      PositiveShare(p.remaining, p.quantity);
      if theirs < ours {
        SliceLandsOnShare(p.remaining, p.quantity, theirs, ReleaseFraction(ours, theirs));
      }
    }
  }

  lemma {:induction false} PositiveShare(remaining: real, quantity: real)
    requires remaining > 0.0 && quantity > 0.0
    ensures Share(remaining, quantity) > 0.0
  {
  }

  lemma {:induction false} SliceLandsOnShare(remaining: real, quantity: real, theirs: real, f: real)
    requires remaining > 0.0 && quantity > 0.0
    requires 0.0 < f && (theirs >= 0.0 ==> Share(remaining, quantity) * (1.0 - f) == theirs)
    ensures theirs >= 0.0 ==> remaining - remaining * f == theirs * quantity
  {
    var ours, kept := Share(remaining, quantity), 1.0 - f;
    assert ours * quantity == remaining;
    assert remaining - remaining * f == remaining * kept;
    assert (ours * quantity) * kept == (ours * kept) * quantity;
  }

  // --- Closing and settling ------------------------------------------------------------------------

  /** A close pays what the whole remainder fetches, nothing if the pool is dead, and records all the pair ever paid. */
  lemma {:induction false} CloseWrites(b: Book, sig: Signal, m: Market)
    requires Inv(b) && ClosePair(b, sig, m).Done? && ClosePair(b, sig, m).outcome == ClosedPair
    ensures sig.positionId.Some?
    ensures exists i | 0 <= i < |b.pairs| ::
              && OnlyPair(b, ClosePair(b, sig, m).book, i)
              && b.pairs[i].leader == sig.positionId.value && b.pairs[i].pos.open
              && var p, q, c := b.pairs[i].pos, ClosePair(b, sig, m).book.pairs[i].pos, ClosePair(b, sig, m).book;
              && m.mark(HoldingOf(p)).Some?
              && var mark := m.mark(HoldingOf(p)).value;
              var paid := if mark.dead then 0.0 else SellProceeds(p.remaining, mark.price, mark.liquidity);
              && c.cash == b.cash + paid
              && q == p.(open := false, exitProceeds := Some(p.banked + paid), lastValue := Some(0.0))
  {
    var i := PairedPosition(b.pairs, sig.positionId.value).value;
    assert OnlyPair(b, ClosePair(b, sig, m).book, i);
  }

  /** A settlement leaves a pair without a mark alone, closes a dead one for nothing and one a week old for what it
      fetches, and stores any other at banked proceeds plus what it would fetch. */
  lemma {:induction false} SettlementWrites(b: Book, i: nat, m: Market)
    requires Sound(b) && i < |b.pairs|
    ensures var s, p := SettlePair(b, i, m), b.pairs[i].pos;
            && s.Done?
            && (!p.open || m.mark(HoldingOf(p)).None? ==> s.book == b)
            && (p.open && m.mark(HoldingOf(p)).Some? ==>
                  && OnlyPair(b, s.book, i)
                  && var q, mark := s.book.pairs[i].pos, m.mark(HoldingOf(p)).value;
                  var worth := SellProceeds(p.remaining, mark.price, mark.liquidity);
                  if mark.dead then
                    s.book.cash == b.cash && q == p.(open := false, exitProceeds := Some(p.banked),
                      lastValue := Some(0.0))
                  else if m.now - p.openedAt >= 7 * 24 * 3600 then
                    && s.book.cash == b.cash + worth
                    && q == p.(open := false, exitProceeds := Some(p.banked + worth), lastValue := Some(0.0))
                  else
                    s.book.cash == b.cash && q == p.(lastValue := Some(p.banked + worth)))
  {
    var p := b.pairs[i].pos;
    if p.open && m.mark(HoldingOf(p)).Some? {
      var mark := m.mark(HoldingOf(p)).value;
      SettledAsIs(p, mark, m.now);
    } else {
      assert SettlePair(b, i, m).book == b;
    }
  }

  lemma {:induction false} SettledAsIs(p: Position, mark: Mark, now: int)
    requires p.open
    ensures var worth := SellProceeds(p.remaining, mark.price, mark.liquidity);
            SettleOne(p, Some(mark), ExitVerdict(p, now)) ==
            if mark.dead then Sold(p.(open := false, exitProceeds := Some(p.banked), lastValue := Some(0.0)), 0.0)
            else if now - p.openedAt >= 7 * 24 * 3600 then
              Sold(p.(open := false, exitProceeds := Some(p.banked + worth), lastValue := Some(0.0)), worth)
            else Sold(p.(lastValue := Some(p.banked + worth)), 0.0)
  {
  }

  // --- Ticks ------------------------------------------------------------------------------------------

  /** A signal of a buy that opened is answered by an opening, one of a sell that closed by a close, any other not. */
  lemma {:induction false} SignalsAreDispatched(b: Book, sig: Signal, m: Market)
    requires Sound(b)
    ensures Act(b, Mirroring(sig, m)) ==
            if sig.outcome == "opened" && sig.side == "buy" then Open(b, sig, m)
            else if sig.outcome == "closed" && sig.side == "sell" then ClosePair(b, sig, m)
            else Done(b, NotMirrorable)
    ensures forall i :: Act(b, Reconciling(i, m)) == ReconcileOne(b, i, m)
    ensures forall i :: Act(b, Settling(i, m)) == SettlePair(b, i, m)
  {
  }

  /** A run takes its actions in turn and stops at the first that raises; a tick that raises leaves the book alone, and
      a history goes from tick to tick. */
  lemma {:induction false} RunsGoInTurn(b: Book, a: Action, rest: seq<Action>, ticks: seq<seq<Action>>)
    requires Sound(b)
    ensures Run(b, []).Done? && Run(b, []).book == b && History(b, []) == b
    ensures Act(b, a).Raised? ==> Run(b, [a] + rest).Raised? && Transact(b, [a] + rest) == b
    ensures Act(b, a).Done? ==> Run(b, [a] + rest) == Run(Act(b, a).book, rest)
    ensures Run(b, [a] + rest).Done? ==> Transact(b, [a] + rest) == Run(b, [a] + rest).book
    ensures Run(b, [a] + rest).Raised? ==> Transact(b, [a] + rest) == b
    ensures History(b, [[a] + rest] + ticks) == History(Transact(b, [a] + rest), ticks)
  {
    assert ([a] + rest)[1..] == rest;
    assert ([[a] + rest] + ticks)[1..] == ticks;
  }

  // --- Units over runs -----------------------------------------------------------------------------

  /** Units of a pair that have been sold off while it was held. */
  function UnitsSold(b: Book, i: nat): real {
    if i < |b.pairs| then b.pairs[i].pos.quantity - b.pairs[i].pos.remaining else 0.0
  }

  predicate TrimsPair(b: Book, a: Action, i: nat)
    requires Sound(b)
  {
    a.Reconciling? && a.pair == i && Act(b, a).Done? && Act(b, a).outcome == Trimmed
  }

  /** What the trims of a run sold of one pair. */
  function SoldByTrims(b: Book, acts: seq<Action>, i: nat): real
    requires Sound(b) && Run(b, acts).Done?
    decreases |acts|
  {
    if acts == [] then 0.0
    else
      var c := Act(b, acts[0]).book;
      (if TrimsPair(b, acts[0], i) then UnitsSold(c, i) - UnitsSold(b, i) else 0.0) + SoldByTrims(c, acts[1..], i)
  }

  lemma {:induction false} OnlyTrimsSell(b: Book, a: Action, i: nat)
    requires Inv(b) && Act(b, a).Done? && !TrimsPair(b, a, i)
    ensures UnitsSold(Act(b, a).book, i) == UnitsSold(b, i)
  {
    match a
    case Mirroring(sig, m) =>
      if sig.outcome == "opened" && sig.side == "buy" {
        if Act(b, a).outcome == Opened { OpeningWrites(b, sig, m); } else { OpeningRefuses(b, sig, m); }
      } else if sig.outcome == "closed" && sig.side == "sell" {
        if Act(b, a).outcome == ClosedPair {
          CloseWrites(b, sig, m);
          var j :| 0 <= j < |b.pairs| && OnlyPair(b, Act(b, a).book, j) &&
                   Act(b, a).book.pairs[j].pos.quantity == b.pairs[j].pos.quantity &&
                   Act(b, a).book.pairs[j].pos.remaining == b.pairs[j].pos.remaining;
        }
      }
    case Reconciling(j, m) => VisitWithoutTrimSellsNothing(b, j, m, i);
    case Settling(j, m) => if j < |b.pairs| { SettlementWrites(b, j, m); }
  }

  lemma {:induction false} VisitWithoutTrimSellsNothing(b: Book, j: nat, m: Market, i: nat)
    requires Sound(b) && (i == j ==> ReconcileOne(b, j, m).Done? && ReconcileOne(b, j, m).outcome != Trimmed)
    ensures ReconcileOne(b, j, m).Done? && UnitsSold(ReconcileOne(b, j, m).book, i) == UnitsSold(b, i)
  {
    SoundReconcile(b, j, m);
    var s := ReconcileOne(b, j, m);
    if s.outcome == Added {
      TopUpWrites(b, j, m);
    } else if s.outcome == Trimmed {
      TrimWrites(b, j, m);
    }
  }

  /** Over every run the units sold of a pair, born in it or before it, change by its trims and by nothing else. */
  lemma {:induction false} UnitsLeaveByTrimsAlone(b: Book, acts: seq<Action>, i: nat)
    requires Inv(b) && Run(b, acts).Done?
    ensures UnitsSold(Run(b, acts).book, i) == UnitsSold(b, i) + SoldByTrims(b, acts, i)
    decreases |acts|
  {
    if acts != [] {
      ActIsSafe(b, acts[0]);
      if !TrimsPair(b, acts[0], i) { OnlyTrimsSell(b, acts[0], i); }
      UnitsLeaveByTrimsAlone(Act(b, acts[0]).book, acts[1..], i);
    }
  }

  /** And each trim does sell something. */
  lemma {:induction false} TrimsSell(b: Book, a: Action, i: nat)
    requires Inv(b) && TrimsPair(b, a, i)
    ensures UnitsSold(Act(b, a).book, i) > UnitsSold(b, i)
  {
    TrimWrites(b, i, a.market);
  }
}
