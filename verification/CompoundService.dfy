/** The ratchet as the service runs it: wallet rows updated in place, one pass over all of them per tick. */
module CompoundService {
  import opened Wrappers
  import opened Lab
  import opened Compound
  import opened CompoundLedger

  /** A registry may switch the ratchet off; its wallets then trade and settle and nothing else. */
  function Turn(ratchet: bool, w: Wallet, s: Session): Wallet {
    if ratchet then Tick(w, s) else Trade(w, s)
  }

  /** With the ratchet off a turn leaves the cycles alone and nothing is sold for a target. */
  lemma {:induction false} TurnWithoutRatchet(w: Wallet, s: Session)
    ensures var b := Buy(w, s.orders);
            var swept := SweepBook(b.positions, SettleDesk(s));
            && Turn(false, w, s) == Wallet(b.cash + swept.credit, swept.positions, b.cycles)
            && Turn(true, w, s) == Tick(w, s)
  {
  }

  /** The first `k` positions of `start` have been offered, and what the rest would bring is still to come. */
  ghost predicate SoldUpTo(start: Wallet, w: Wallet, closed: nat, k: nat, d: Desk) {
    && k <= |start.positions| == |w.positions| && w.cycles == start.cycles
    && (var all, rest := SweepBook(start.positions, d), SweepBook(start.positions[k..], d);
        && (forall j | 0 <= j < |w.positions| ::
              w.positions[j] == if j < k then all.positions[j] else start.positions[j])
        && w.cash + rest.credit == start.cash + all.credit
        && closed + rest.sold == all.sold)
  }

  /** What the positions from `k` on bring is what position `k` brings and what the later ones do. */
  lemma {:induction false} SweepFrom(ps: seq<Position>, k: nat, d: Desk)
    requires k < |ps|
    ensures var here, rest, sale := SweepBook(ps[k..], d), SweepBook(ps[k + 1..], d), Offer(d, ps[k]);
            if sale.Sold? then here.credit == sale.credit + rest.credit && here.sold == rest.sold + 1
            else here.credit == rest.credit && here.sold == rest.sold
  {
    assert ps[k..][0] == ps[k] && ps[k..][1..] == ps[k + 1..];
  }

  lemma {:induction false} SoldNone(start: Wallet, d: Desk)
    ensures SoldUpTo(start, start, 0, 0, d)
  {
    assert start.positions[0..] == start.positions;
  }

  function AfterSale(w: Wallet, k: nat, sale: Sale): Wallet
    requires k < |w.positions|
  {
    if sale.Sold? then w.(cash := w.cash + sale.credit, positions := w.positions[k := sale.position]) else w
  }

  lemma {:induction false} SellOneMore(start: Wallet, w: Wallet, closed: nat, k: nat, d: Desk)
    requires SoldUpTo(start, w, closed, k, d) && k < |start.positions|
    ensures w.positions[k] == start.positions[k]
    ensures var sale := Offer(d, start.positions[k]);
            SoldUpTo(start, AfterSale(w, k, sale), if sale.Sold? then closed + 1 else closed, k + 1, d)
  {
    SweepFrom(start.positions, k, d);
  }

  lemma {:induction false} SoldOut(start: Wallet, w: Wallet, closed: nat, s: Session)
    requires SoldUpTo(start, w, closed, |start.positions|, CycleDesk(s))
    ensures w == SellTheBook(start, s) && closed == SweepBook(start.positions, CycleDesk(s)).sold
  {
    assert w.positions == SweepBook(start.positions, CycleDesk(s)).positions;
  }

  method SellEach(start: Wallet, s: Session) returns (w: Wallet, closed: nat)
    ensures w == SellTheBook(start, s) && closed == SweepBook(start.positions, CycleDesk(s)).sold
  {
    ghost var d := CycleDesk(s);
    w, closed := start, 0;
    SoldNone(start, d);
    for k := 0 to |start.positions|
      invariant SoldUpTo(start, w, closed, k, d)
    {
      var p := w.positions[k];
      SellOneMore(start, w, closed, k, d);
      var sale := CloseManually(p, s.saleMark(HoldingOf(p)));
      w := AfterSale(w, k, sale);
      if sale.Sold? {
        closed := closed + 1;
      }
    }
    SoldOut(start, w, closed, s);
  }

  class Registry {
    const ratchet: bool
    var wallets: seq<Wallet>

    ghost predicate Valid()
      reads this
    {
      forall i | 0 <= i < |wallets| :: WalletOk(wallets[i])
    }

    constructor (ratchet: bool, n: nat)
      ensures this.ratchet == ratchet && wallets == seq(n, _ => FRESH) && Valid()
    {
      this.ratchet := ratchet;
      wallets := seq(n, _ => FRESH);
    }

    /** Close every open position that can be marked, crediting the wallet as each one goes. */
    method SellBook(i: nat, s: Session) returns (closed: nat)
      requires i < |wallets|
      modifies this
      ensures wallets == old(wallets)[i := SellTheBook(old(wallets[i]), s)]
      ensures closed == SweepBook(old(wallets[i]).positions, CycleDesk(s)).sold
    {
      var w;
      w, closed := SellEach(wallets[i], s);
      wallets := wallets[i := w];
    }

    /** Bank wallet `i` if it has reached its target. */
    method BankWallet(i: nat, s: Session)
      requires i < |wallets|
      modifies this
      ensures wallets == old(wallets)[i := Bank(old(wallets[i]), s)]
    {
      var running := Running(wallets[i].cycles);
      if running.None? {
        assert wallets == wallets[i := wallets[i]];
        return;
      }
      var n, equity := running.value, Equity(wallets[i]);
      if equity < wallets[i].cycles[n].target {
        assert wallets == wallets[i := wallets[i]];
        return;
      }
      var closed := SellBook(i, s);
      var w := wallets[i];
      var banking := Banking(s.now, equity, Equity(w), closed);
      w := w.(cycles := w.cycles[n := w.cycles[n].(banking := Some(banking))]);
      w := w.(cycles := OpenCycle(w.cycles));
      wallets := wallets[i := w];
    }

    method OpenCycles()
      modifies this
      ensures |wallets| == |old(wallets)|
      ensures forall i | 0 <= i < |wallets| :: wallets[i] == WithOpenCycle(old(wallets)[i])
    {
      var n := |wallets|;
      for k := 0 to n
        invariant |wallets| == n
        invariant forall i | 0 <= i < n ::
                    wallets[i] == if i < k then WithOpenCycle(old(wallets)[i]) else old(wallets)[i]
      {
        wallets := wallets[k := WithOpenCycle(wallets[k])];
      }
    }

    method TradeAll(sessions: seq<Session>)
      requires |sessions| == |wallets|
      modifies this
      ensures |wallets| == |old(wallets)|
      ensures forall i | 0 <= i < |wallets| :: wallets[i] == Trade(old(wallets)[i], sessions[i])
    {
      var n := |wallets|;
      for k := 0 to n
        invariant |wallets| == n
        invariant forall i | 0 <= i < n ::
                    wallets[i] == if i < k then Trade(old(wallets)[i], sessions[i]) else old(wallets)[i]
      {
        wallets := wallets[k := Trade(wallets[k], sessions[k])];
      }
    }

    method BankAll(sessions: seq<Session>)
      requires |sessions| == |wallets|
      modifies this
      ensures |wallets| == |old(wallets)|
      ensures forall i | 0 <= i < |wallets| :: wallets[i] == Bank(old(wallets)[i], sessions[i])
    {
      var n := |wallets|;
      for k := 0 to n
        invariant |wallets| == n
        invariant forall i | 0 <= i < n ::
                    wallets[i] == if i < k then Bank(old(wallets)[i], sessions[i]) else old(wallets)[i]
      {
        BankWallet(k, sessions[k]);
      }
    }

    /** One pass in three phases, each over all wallets: cycles are opened, books are traded, targets are checked.
        However the phases interleave the wallets, each ends where its own turn alone would take it. */
    method Pass(sessions: seq<Session>)
      requires Valid() && |sessions| == |wallets|
      modifies this
      ensures Valid() && |wallets| == |old(wallets)|
      ensures forall i | 0 <= i < |wallets| :: wallets[i] == Turn(ratchet, old(wallets)[i], sessions[i])
    {
      forall i | 0 <= i < |wallets| ensures WalletOk(Turn(ratchet, wallets[i], sessions[i])) {
        TickIsSafe(wallets[i], sessions[i]);
        TradeKeepsTheBooks(wallets[i], sessions[i]);
      }
      if ratchet {
        OpenCycles();
      }
      TradeAll(sessions);
      if ratchet {
        BankAll(sessions);
      }
    }
  }
}
