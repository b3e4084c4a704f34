/** What each step of the ratchet writes, column by column. */
module CompoundFacts {
  import opened Wrappers
  import opened Lab
  import opened Compound
  import opened CompoundLedger

  // --- Cycles ------------------------------------------------------------------------------------

  /** The first cycle is $100 to $110; the next one is numbered on and starts from what the last one realised. */
  lemma {:induction false} CycleOpensFrom(cs: seq<Cycle>)
    requires LedgerOk(cs)
    ensures cs == [] ==> OpenCycle(cs) == [Cycle(1, 100.0, 110.0, None)]
    ensures cs != [] && cs[|cs| - 1].banking.None? ==> OpenCycle(cs) == cs
    ensures cs != [] && cs[|cs| - 1].banking.Some? ==>
              var base := cs[|cs| - 1].banking.value.realised;
              OpenCycle(cs) == cs + [Cycle(|cs| + 1, base, base * 1.1, None)]
  {
    OpenCycleKeepsTheLedger(cs);
    if cs != [] && cs[|cs| - 1].banking.Some? {
      forall i | 0 <= i < |cs| ensures cs[i].banking.Some? {
        if i + 1 < |cs| { assert StartsFrom(cs, i + 1, cs[i + 1].base); }
      }
      assert Running(cs).None?;
    }
  }

  // --- Trading -------------------------------------------------------------------------------------

  /** An order is filled exactly when its stake is in cash and it has a price; then it is this position. Orders are
      taken in turn, each from the cash the ones before it left. */
  lemma {:induction false} OrdersAreFilledInTurn(w: Wallet, o: Order, rest: seq<Order>)
    ensures Buy(w, []) == w
    ensures var fill := BuyQuantity(o.size, o.price, o.liquidity);
            Buy(w, [o] + rest) ==
            if o.size <= w.cash && fill.Some? then
              var p := Position(o.mint, o.at, o.price, o.size, fill.value, fill.value, 0.0, None, true, None);
              Buy(Wallet(w.cash - o.size, w.positions + [p], w.cycles), rest)
            else Buy(w, rest)
  {
    assert ([o] + rest)[1..] == rest;
  }

  function CreditOf(s: Sale): real { if s.Sold? then s.credit else 0.0 }

  /** A sweep pays the sum of what its sales pay and counts them. */
  lemma {:induction false} SweepAddsUp(p: Position, rest: seq<Position>, d: Desk)
    ensures SweepBook([], d) == Sweep([], 0.0, 0)
    ensures var here, later := SweepBook([p] + rest, d), SweepBook(rest, d);
            && here.credit == CreditOf(Offer(d, p)) + later.credit
            && here.sold == (if Offer(d, p).Sold? then 1 else 0) + later.sold
  {
    assert ([p] + rest)[1..] == rest;
  }

  /** What each desk offers a position: the settlement its exit rule at the mark of the tick, the sale of the book a
      close at the mark of the sale. */
  lemma {:induction false} DesksOffer(p: Position, s: Session)
    ensures var mark := s.mark(HoldingOf(p)); Offer(SettleDesk(s), p) == SettleOne(p, mark, s.judge(p, mark))
    ensures Offer(CycleDesk(s), p) == CloseManually(p, s.saleMark(HoldingOf(p)))
  {
  }

  /** A wallet buys before it settles, so what it buys is marked in the same tick. */
  lemma {:induction false} TradeGoesInOrder(w: Wallet, s: Session)
    ensures var bought := Buy(w, s.orders);
            var settled := SweepBook(bought.positions, SettleDesk(s));
            Trade(w, s) == Wallet(bought.cash + settled.credit, settled.positions, bought.cycles)
  {
  }

  /** A tick opens the cycle, trades, and then tests the target. */
  lemma {:induction false} TickGoesInOrder(w: Wallet, s: Session)
    ensures Tick(w, s) == Bank(Trade(Wallet(w.cash, w.positions, OpenCycle(w.cycles)), s), s)
  {
    assert WithOpenCycle(w) == Wallet(w.cash, w.positions, OpenCycle(w.cycles));
  }

  // --- Banking ----------------------------------------------------------------------------------------

  /** What the wallet is worth on its books: cash, and for each open position its stored value, or its stake when it
      has none. */
  lemma {:induction false} EquityAddsUp(cash: real, p: Position, rest: seq<Position>, cs: seq<Cycle>)
    ensures Equity(Wallet(cash, [], cs)) == cash
    ensures var value := if !p.open then 0.0 else if p.lastValue.Some? then p.lastValue.value else p.size;
            Equity(Wallet(cash, [p] + rest, cs)) == value + Equity(Wallet(cash, rest, cs))
  {
    assert ([p] + rest)[1..] == rest;
  }

  /** A wallet banks exactly when its equity has reached its target; then the cycle records both equities, the time and
      the closes, the book is sold, and the next cycle starts from what that realised. */
  lemma {:induction false} BankingWrites(w: Wallet, s: Session)
    requires WalletOk(w) && IsRunning(w.cycles)
    ensures var n, v, sale := |w.cycles| - 1, Bank(w, s), SweepBook(w.positions, CycleDesk(s));
            if Equity(w) < w.cycles[n].target then v == w
            else
              && v.cash == w.cash + sale.credit && v.positions == sale.positions
              && |v.cycles| == n + 2 && v.cycles[..n] == w.cycles[..n]
              && v.cycles[n] == w.cycles[n].(banking := Some(Banking(s.now, Equity(w), Equity(v), sale.sold)))
              && v.cycles[n + 1] == Cycle(n + 2, Equity(v), Equity(v) * 1.1, None)
  {
    BankKeepsTheBooks(w, s);
    var n := |w.cycles| - 1;
    if Equity(w) >= w.cycles[n].target {
      BankIsSaleAndLedger(w, s);
      BankedLedger(w.cycles, BankingOf(w, s));
      BankingKeepsTheLedger(w.cycles, BankingOf(w, s));
      CycleOpensFrom(WithBanking(w.cycles, BankingOf(w, s)));
    }
  }
}
