/** The control arm as the service runs it: a wallet row and its positions, updated in place. */
module CopyControlService {
  import opened Lab
  import opened CopyControl
  import opened CopyControlSafety
  import opened CopyControlConvergence

  /** How one call ended; `Aborted` is the integrity error the caller's transaction dies of. */
  datatype Ended = Finished(outcome: Outcome) | Aborted

  /** A signal, and the market as its turn saw it. */
  datatype Heard = Heard(sig: Signal, market: Market)

  function MirrorActions(batch: seq<Heard>): seq<Action> {
    seq(|batch|, k requires 0 <= k < |batch| => Mirroring(batch[k].sig, batch[k].market))
  }

  /** The steps of one tick, in the order the service takes them. */
  function TickActions(batch: seq<Heard>, t: Quiet): seq<Action> {
    MirrorActions(batch) + QuietActions(t)
  }

  /** A tick answers its signals in their order, then reconciles, then settles: what the signals opened is reconciled in
      the same tick, and what the reconciliation left is what is settled. */
  lemma {:induction false} TickGoesInOrder(b: Book, batch: seq<Heard>, t: Quiet)
    requires Sound(b)
    ensures |MirrorActions(batch)| == |batch|
    ensures forall k | 0 <= k < |batch| :: MirrorActions(batch)[k] == Mirroring(batch[k].sig, batch[k].market)
    ensures Run(b, MirrorActions(batch)).Raised? ==> Transact(b, TickActions(batch, t)) == b
    ensures Run(b, MirrorActions(batch)).Done? ==>
              Transact(b, TickActions(batch, t)) ==
              SettlePass(Pass(Run(b, MirrorActions(batch)).book, t.reconciling), t.settling)
  {
    RunAppend(b, MirrorActions(batch), QuietActions(t));
    if Run(b, MirrorActions(batch)).Done? {
      QuietTickIsTwoPasses(Run(b, MirrorActions(batch)).book, t);
    }
  }

  /** A loop over the book takes its rows in turn, each in its own market. */
  lemma {:induction false} PassesGoInTurn(b: Book, v: Visit, rest: seq<Visit>)
    requires Sound(b)
    ensures Sound(ReconcileOne(b, v.pair, v.market).book)
    ensures Pass(b, []) == b && Pass(b, [v] + rest) == Pass(ReconcileOne(b, v.pair, v.market).book, rest)
    ensures SettlePass(b, []) == b && SettlePass(b, [v] + rest) ==
            SettlePass(SettlePair(b, v.pair, v.market).book, rest)
  {
    SoundReconcile(b, v.pair, v.market);
    assert ([v] + rest)[1..] == rest;
  }

  class ControlArm {
    var cash: real
    var pairs: seq<Pair>

    ghost function View(): Book
      reads this
    {
      Book(cash, pairs)
    }

    ghost predicate Valid()
      reads this
    {
      Inv(View())
    }

    constructor ()
      ensures Valid() && View() == START
    {
      cash, pairs := STARTING_EQUITY, [];
    }

    method OpenPair(sig: Signal, m: Market) returns (e: Ended)
      requires Valid()
      modifies this
      ensures Valid() && Advances(old(View()), View())
      ensures match Open(old(View()), sig, m)
              case Raised => e == Aborted && View() == old(View())
              case Done(b, outcome) => e == Finished(outcome) && View() == b
    {
      ghost var before := View();
      if sig.positionId.Some? && AnyPaired(pairs, sig.positionId.value) {
        return Finished(AlreadyMirrored);
      }
      if sig.positionId.None? || sig.positionId.value !in m.leaders {
        return Finished(LeaderPositionMissing);
      }
      var size := OpeningSize(m.leaders[sig.positionId.value]);
      if cash < size {
        return Finished(InsufficientCash);
      }
      if OpenCount(pairs) >= MAX_CONCURRENT {
        return Finished(MaxConcurrent);
      }
      var candidates := Eligible(m.pool, HeldMints(pairs) + {sig.mint});
      if candidates == [] {
        return Finished(NoCandidates);
      }
      var c := Pick(candidates, sig.signature, m.draw);
      var qty := BuyQuantity(size, c.price, c.liquidity);
      if qty.None? {
        return Finished(Unpriceable);
      }
      if EverHeld(pairs, c.mint) {
        return Aborted;
      }
      cash := cash - size;
      pairs := pairs + [NewPair(sig, c, size, qty.value, m.now)];
      OpenIsSafe(before, sig, m);
      return Finished(Opened);
    }

    method CloseAnswering(sig: Signal, m: Market) returns (outcome: Outcome)
      requires Valid()
      modifies this
      ensures Valid() && Advances(old(View()), View())
      ensures ClosePair(old(View()), sig, m) == Done(View(), outcome)
    {
      ghost var before := View();
      CloseIsSafe(before, sig, m);
      if sig.positionId.None? {
        return NoPairRecorded;
      }
      var mine := PairedPosition(pairs, sig.positionId.value);
      if mine.None? {
        return NoPairedPosition;
      }
      var p := pairs[mine.value].pos;
      var sale := CloseManually(p, m.mark(HoldingOf(p)));
      if sale.Refused? {
        return Declined(sale.reason);
      }
      cash := cash + sale.credit;
      pairs := pairs[mine.value := pairs[mine.value].(pos := sale.position)];
      return ClosedPair;
    }

    /** Answer the signals in order, stopping dead at the first integrity error. */
    method MirrorBatch(batch: seq<Heard>) returns (aborted: bool)
      requires Valid()
      modifies this
      ensures Valid() && Advances(old(View()), View())
      ensures aborted <==> Run(old(View()), MirrorActions(batch)).Raised?
      ensures !aborted ==> View() == Run(old(View()), MirrorActions(batch)).book
    {
      ghost var acts := MirrorActions(batch);
      assert acts[0..] == acts;
      for k := 0 to |batch|
        invariant Valid() && Advances(old(View()), View())
        invariant Run(View(), acts[k..]) == Run(old(View()), acts)
      {
        var sig, m := batch[k].sig, batch[k].market;
        assert acts[k..][0] == Mirroring(sig, m) && acts[k..][1..] == acts[k + 1..];
        if sig.outcome == "opened" && sig.side == "buy" {
          var e := OpenPair(sig, m);
          if e.Aborted? {
            return true;
          }
        } else if sig.outcome == "closed" && sig.side == "sell" {
          var _ := CloseAnswering(sig, m);
        }
      }
      return false;
    }

    /** Bring every pair up to its leader's capital, or down to its leader's remaining share. */
    method Reconcile(visits: seq<Visit>)
      requires Valid()
      modifies this
      ensures Valid() && Advances(old(View()), View())
      ensures View() == Pass(old(View()), visits)
    {
      for k := 0 to |visits|
        invariant Valid() && Advances(old(View()), View())
        invariant Pass(View(), visits[k..]) == Pass(old(View()), visits)
      {
        ReconcileIsSafe(View(), visits[k].pair, visits[k].market);
        assert visits[k..][0] == visits[k] && visits[k..][1..] == visits[k + 1..];
        VisitPair(visits[k].pair, visits[k].market);
      }
    }

    method VisitPair(i: nat, m: Market)
      requires Valid()
      modifies this
      ensures View() == ReconcileOne(old(View()), i, m).book
    {
      if i >= |pairs| || !pairs[i].pos.open || pairs[i].leader !in m.leaders {
        return;
      }
      var p := pairs[i].pos;
      assert PairOk(pairs[i]);
      var leader := m.leaders[pairs[i].leader];
      if leader.size > p.size {
        var increment := leader.size - p.size;
        var quote := m.quote(p.mint);
        if cash < increment || quote.None? {
          return;
        }
        var qty := BuyQuantity(increment, quote.value.price, quote.value.liquidity);
        if qty.Some? {
          cash := cash - increment;
          pairs := pairs[i := pairs[i].(pos := Blended(p, increment, qty.value))];
        }
      } else if leader.quantity != 0.0 {
        var theirs := Share(leader.remaining, leader.quantity);
        var ours := Share(p.remaining, p.quantity);
        if theirs < ours {
          var sale := TrimManually(p, ReleaseFraction(ours, theirs), m.mark(HoldingOf(p)));
          if sale.Sold? {
            cash := cash + sale.credit;
            pairs := pairs[i := pairs[i].(pos := sale.position)];
          }
        }
      }
    }

    /** Store each position at its mark and let its exit rule act. */
    method Settle(visits: seq<Visit>)
      requires Valid()
      modifies this
      ensures Valid() && Advances(old(View()), View())
      ensures View() == SettlePass(old(View()), visits)
    {
      for k := 0 to |visits|
        invariant Valid() && Advances(old(View()), View())
        invariant SettlePass(View(), visits[k..]) == SettlePass(old(View()), visits)
      {
        SettleIsSafe(View(), visits[k].pair, visits[k].market);
        assert visits[k..][0] == visits[k] && visits[k..][1..] == visits[k + 1..];
        SettleRow(visits[k].pair, visits[k].market);
      }
    }

    method SettleRow(i: nat, m: Market)
      modifies this
      ensures View() == SettlePair(old(View()), i, m).book
    {
      if i < |pairs| {
        var p := pairs[i].pos;
        var sale := SettleOne(p, m.mark(HoldingOf(p)), ExitVerdict(p, m.now));
        if sale.Sold? {
          cash := cash + sale.credit;
          pairs := pairs[i := pairs[i].(pos := sale.position)];
        }
      }
    }

    /** One tick in one transaction: the signals, then the reconciliation, then the settlement. */
    method Tick(batch: seq<Heard>, t: Quiet) returns (committed: bool)
      requires Valid()
      modifies this
      ensures Valid() && Advances(old(View()), View())
      ensures View() == Transact(old(View()), TickActions(batch, t))
      ensures committed <==> Run(old(View()), TickActions(batch, t)).Done?
    {
      var cash0, pairs0 := cash, pairs;
      RunAppend(View(), MirrorActions(batch), QuietActions(t));
      var aborted := MirrorBatch(batch);
      if aborted {
        cash, pairs := cash0, pairs0;
        return false;
      }
      QuietTickIsTwoPasses(View(), t);
      Reconcile(t.reconciling);
      Settle(t.settling);
      return true;
    }
  }
}
