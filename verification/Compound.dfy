/** The compounding ratchet: a wallet trades until its equity reaches a target, sells its book,
    banks what that realised, and starts the next cycle from there. */
module Compound {
  import opened Wrappers
  import opened Lab

  const STARTING_EQUITY: real := 100.0
  const CYCLE_TARGET_MULTIPLE: real := 1.1

  /** What a cycle recorded when its target was reached. */
  datatype Banking = Banking(at: int, equityAtTarget: real, realised: real, positionsClosed: nat)

  /** One row of the cycle ledger; `banking` is None while the cycle runs. */
  datatype Cycle = Cycle(no: nat, base: real, target: real, banking: Option<Banking>)

  datatype Wallet = Wallet(cash: real, positions: seq<Position>, cycles: seq<Cycle>)

  /** A purchase the entry rules asked for. */
  datatype Order = Order(mint: string, at: int, size: real, price: real, liquidity: real)

  /** What one wallet's part of a tick reads from outside: its orders, the marks its settlement reads, its exit rules,
      and the marks a sale of the book reads afterwards, which may have moved. */
  datatype Session = Session(
    now: int,
    orders: seq<Order>,
    mark: Holding -> Option<Mark>,
    judge: (Position, Option<Mark>) -> Verdict,
    saleMark: Holding -> Option<Mark>)

  // --- Cycles ------------------------------------------------------------------------

  function TargetOf(base: real): real {
    base * CYCLE_TARGET_MULTIPLE
  }

  function NewCycle(no: nat, base: real): Cycle {
    Cycle(no, base, TargetOf(base), None)
  }

  /** The running cycle with the highest number, if any: rows are stored in number order. */
  function Running(cycles: seq<Cycle>): (r: Option<nat>)
    ensures r.Some? ==> r.value < |cycles| && cycles[r.value].banking.None?
    ensures r.Some? ==> forall i | r.value < i < |cycles| :: cycles[i].banking.Some?
    ensures r.None? ==> forall i | 0 <= i < |cycles| :: cycles[i].banking.Some?
  {
    if cycles == [] then None
    else if cycles[|cycles| - 1].banking.None? then Some(|cycles| - 1)
    else Running(cycles[..|cycles| - 1])
  }

  /** `_open_cycle`: keep the running cycle, or open the next from what the last one realised. */
  function OpenCycle(cycles: seq<Cycle>): (r: seq<Cycle>)
    ensures cycles <= r && |r| <= |cycles| + 1 && Running(r).Some?
  {
    if Running(cycles).Some? then cycles
    else if cycles == [] then [NewCycle(1, STARTING_EQUITY)]
    else
      var last := cycles[|cycles| - 1];
      cycles + [NewCycle(last.no + 1, last.banking.value.realised)]
  }

  // --- The lab's part of the pass -----------------------------------------------------

  /** The two ways a tick sells: by the exit rules, or because the wallet hit its target. */
  datatype Desk = SettleDesk(session: Session) | CycleDesk(session: Session)

  function MarkAt(d: Desk, p: Position): Option<Mark> {
    match d
    case SettleDesk(s) => s.mark(HoldingOf(p))
    case CycleDesk(s) => s.saleMark(HoldingOf(p))
  }

  function Offer(d: Desk, p: Position): (sale: Sale)
    ensures sale.Sold? <==> p.open && MarkAt(d, p).Some?
    ensures sale.Sold? && WellFormed(p) ==> SaleKeepsTheBooks(p, sale)
  {
    var mark := MarkAt(d, p);
    match d
    case SettleDesk(s) => SettleOne(p, mark, s.judge(p, mark))
    case CycleDesk(_) => CloseManually(p, mark)
  }

  datatype Sweep = Sweep(positions: seq<Position>, credit: real, sold: nat)

  /** Offer every position in turn; what is refused stays as it was. */
  function SweepBook(ps: seq<Position>, d: Desk): (r: Sweep)
    ensures |r.positions| == |ps|
    ensures forall i | 0 <= i < |ps| :: r.positions[i] == if Offer(d, ps[i]).Sold? then Offer(d, ps[i]).position
            else ps[i]
  {
    if ps == [] then Sweep([], 0.0, 0)
    else
      var rest := SweepBook(ps[1..], d);
      match Offer(d, ps[0])
      case Refused(_) => Sweep([ps[0]] + rest.positions, rest.credit, rest.sold)
      case Sold(q, credit) => Sweep([q] + rest.positions, credit + rest.credit, rest.sold + 1)
  }

  function Fill(o: Order): Option<real> {
    BuyQuantity(o.size, o.price, o.liquidity)
  }

  function Bought(o: Order, quantity: real): Position {
    Position(o.mint, o.at, o.price, o.size, quantity, quantity, 0.0, None, true, None)
  }

  /** Sequential capital: an order is filled only while its cash is there. */
  function Buy(w: Wallet, orders: seq<Order>): Wallet
    decreases |orders|
  {
    if orders == [] then w
    else
      var o := orders[0];
      var next := if w.cash < o.size || Fill(o).None? then w
                  else w.(cash := w.cash - o.size, positions := w.positions + [Bought(o, Fill(o).value)]);
      Buy(next, orders[1..])
  }

  function Settle(w: Wallet, s: Session): Wallet {
    var r := SweepBook(w.positions, SettleDesk(s));
    w.(cash := w.cash + r.credit, positions := r.positions)
  }

  function Trade(w: Wallet, s: Session): Wallet {
    Settle(Buy(w, s.orders), s)
  }

  function Equity(w: Wallet): real {
    w.cash + OpenValue(w.positions)
  }

  // --- The ratchet -----------------------------------------------------------------------

  /** `_sell_the_book`: close every position that can be marked. */
  function SellTheBook(w: Wallet, s: Session): Wallet {
    var r := SweepBook(w.positions, CycleDesk(s));
    w.(cash := w.cash + r.credit, positions := r.positions)
  }

  function WithOpenCycle(w: Wallet): Wallet {
    w.(cycles := OpenCycle(w.cycles))
  }

  /** Sell the book, bank what that realised in cycle `n`, and open the next. */
  function BankCycle(w: Wallet, s: Session, n: nat): Wallet
    requires n < |w.cycles|
  {
    var sold := SellTheBook(w, s);
    var banking := Banking(s.now, Equity(w), Equity(sold), SweepBook(w.positions, CycleDesk(s)).sold);
    WithOpenCycle(sold.(cycles := w.cycles[n := w.cycles[n].(banking := Some(banking))]))
  }

  function Bank(w: Wallet, s: Session): Wallet {
    var running := Running(w.cycles);
    if running.None? || Equity(w) < w.cycles[running.value].target then w else BankCycle(w, s, running.value)
  }

  /** One wallet's part of one tick. */
  function Tick(w: Wallet, s: Session): Wallet {
    Bank(Trade(WithOpenCycle(w), s), s)
  }

  function History(w: Wallet, sessions: seq<Session>): Wallet
    decreases |sessions|
  {
    if sessions == [] then w else History(Tick(w, sessions[0]), sessions[1..])
  }

  const FRESH: Wallet := Wallet(STARTING_EQUITY, [], [])
}
