/** Runs of the ratchet from a fresh wallet that show where its documentation and its ledger part. Two tokens are
    bought at a dollar for ten dollars each; a print over twenty times the entry price is not believed. */
module CompoundRuns {
  import opened Wrappers
  import opened Lab
  import opened Compound

  const LIQUIDITY: real := 24000.0

  function OrderFor(mint: string): Order {
    Order(mint, 0, 10.0, 1.0, LIQUIDITY)
  }

  /** What ten dollars buy. */
  function Units(): (q: real)
    ensures 9.8 < q < 9.97
    ensures forall mint :: Fill(OrderFor(mint)) == Some(q)
  {
    var q := BuyQuantity(10.0, 1.0, LIQUIDITY).value;
    assert q * 1.00997 == 9.97;
    q
  }

  function Quoted(a: real, b: Option<real>): Holding -> Option<Mark> {
    (h: Holding) =>
      var price := if h.mint == "A" then Some(a) else b;
      if price.None? || price.value > h.entryPrice * 20.0 then None else Some(Mark(price.value, LIQUIDITY, false))
  }

  /** The first tick buys both tokens and holds. */
  function FirstTick(): Session {
    Session(0, [OrderFor("A"), OrderFor("B")], Quoted(1.0, Some(1.0)), (p, m) => Hold, Quoted(1.0, Some(1.0)))
  }

  /** Both rise by two fifths, and a rule that takes half at a quarter up fires. */
  function PartialTick(): Session {
    Session(60, [], Quoted(1.4, Some(1.4)), (p, m) => Partial(0.5, Some(1.25)), Quoted(1.4, Some(1.4)))
  }

  /** Both rise by seven tenths, and are back where they were by the time the book is sold. */
  function FallingTick(): Session {
    Session(60, [], Quoted(1.7, Some(1.7)), (p, m) => Hold, Quoted(1.0, Some(1.0)))
  }

  /** One rises fivefold, the other has no usable print. */
  function UnmarkedTick(): Session {
    Session(60, [], Quoted(5.0, None), (p, m) => Hold, Quoted(5.0, None))
  }

  /** A position of one of the two purchases, of `units` tokens. */
  function Bag(mint: string, units: real, value: real): Position {
    Position(mint, 0, 1.0, 10.0, units, units, 0.0, Some(value), true, None)
  }

  function Kept(d: Desk, p: Position): Position {
    if Offer(d, p).Sold? then Offer(d, p).position else p
  }

  function Paid(d: Desk, p: Position): real {
    if Offer(d, p).Sold? then Offer(d, p).credit else 0.0
  }

  lemma {:induction false} SweepOfTwo(p: Position, q: Position, d: Desk)
    ensures SweepBook([p, q], d).positions == [Kept(d, p), Kept(d, q)]
    ensures SweepBook([p, q], d).credit == Paid(d, p) + Paid(d, q)
  {
    var ps := [p, q];
    assert ps[1..] == [q];
    assert SweepBook([q], d).credit == Paid(d, q) by { assert [q][1..] == []; }
  }

  lemma {:induction false} EquityOfTwo(w: Wallet, p: Position, q: Position)
    requires w.positions == [p, q]
    ensures Equity(w) == w.cash + ReportedValue(p) + ReportedValue(q)
  {
    var ps := [p, q];
    assert ps[1..] == [q];
    assert OpenValue([q]) == ReportedValue(q) by { assert [q][1..] == []; }
  }

  /** Both sides of what a sale worth at most `cap` fetches: nearly the print, and never more. */
  lemma {:induction false} Fetches(quantity: real, price: real, cap: real)
    requires quantity > 0.0 && price > 0.0 && quantity * price <= cap <= 1000.0
    ensures var worth := quantity * price;
            worth * (1.0 - cap / 1000.0) * (1.0 - FEE) <= SellProceeds(quantity, price, LIQUIDITY) < worth
  {
    var worth := quantity * price;
    assert worth > 0.0;
    ImpactFloor(worth, 1000.0);
    assert worth * (1.0 - cap / 1000.0) <= worth * (1.0 - worth / 1000.0);
  }

  lemma {:induction false} ImpactFloor(amount: real, depth: real)
    requires amount > 0.0 && depth > 0.0
    ensures AfterImpact(amount, depth) >= amount * (1.0 - amount / depth)
  {
    var t, r := amount / depth, AfterImpact(amount, depth);
    assert r * (1.0 + t) == amount;
    assert amount * (1.0 - t) * (1.0 + t) == amount - amount * t * t;
    assert amount * t * t >= 0.0;
  }

  const OPENED: seq<Cycle> := [NewCycle(1, STARTING_EQUITY)]

  /** What the first tick leaves. */
  ghost predicate Holds(w: Wallet, units: real, value: real) {
    w == Wallet(80.0, [Bag("A", units, value), Bag("B", units, value)], OPENED) && 9.8 < units < 9.97
      && 9.0 < value < 10.0
  }

  lemma {:induction false} AfterFirstTick()
    ensures Holds(Tick(FRESH, FirstTick()), Units(), SellProceeds(Units(), 1.0, LIQUIDITY))
  {
    var s, w, u := FirstTick(), WithOpenCycle(FRESH), Units();
    var v := SellProceeds(u, 1.0, LIQUIDITY);
    BuysBoth(w);
    HeldAt("A");
    HeldAt("B");
    SweepOfTwo(Bought(OrderFor("A"), u), Bought(OrderFor("B"), u), SettleDesk(s));
    var t := Wallet(80.0, [Bag("A", u, v), Bag("B", u, v)], OPENED);
    assert Trade(w, s) == t;
    Fetches(u, 1.0, 10.0);
    EquityOfTwo(t, Bag("A", u, v), Bag("B", u, v));
  }

  lemma {:induction false} HeldAt(mint: string)
    requires mint == "A" || mint == "B"
    ensures Offer(SettleDesk(FirstTick()), Bought(OrderFor(mint), Units())) ==
            Sold(Bag(mint, Units(), SellProceeds(Units(), 1.0, LIQUIDITY)), 0.0)
  {
  }

  lemma {:induction false} BuysBoth(w: Wallet)
    requires w.cash == 100.0 && w.positions == []
    ensures Buy(w, [OrderFor("A"), OrderFor("B")]) ==
            w.(cash := 80.0, positions := [Bought(OrderFor("A"), Units()), Bought(OrderFor("B"), Units())])
  {
    BuysOne(w, OrderFor("A"), [OrderFor("B")]);
    var w1 := w.(cash := 90.0, positions := [Bought(OrderFor("A"), Units())]);
    assert w.positions + [Bought(OrderFor("A"), Units())] == w1.positions;
    BuysOne(w1, OrderFor("B"), []);
    assert [OrderFor("A")] + [OrderFor("B")] == [OrderFor("A"), OrderFor("B")];
    assert [OrderFor("B")] + [] == [OrderFor("B")];
  }

  lemma {:induction false} BuysOne(w: Wallet, o: Order, rest: seq<Order>)
    requires w.cash >= o.size && Fill(o).Some?
    ensures var bought := w.positions + [Bought(o, Fill(o).value)];
            Buy(w, [o] + rest) == Buy(w.(cash := w.cash - o.size, positions := bought), rest)
  {
    assert ([o] + rest)[1..] == rest;
  }

  lemma {:induction false} RunOfTwo(w: Wallet, first: Session, second: Session)
    ensures History(w, [first, second]) == Tick(Tick(w, first), second)
  {
    var sessions := [first, second];
    assert sessions[1..] == [second];
    assert History(Tick(w, first), [second]) == Tick(Tick(w, first), second) by { assert [second][1..] == []; }
  }

  /** A tick that trips the target of the first cycle banks what selling the settled book realises. */
  lemma {:induction false} TripsAndBanks(w: Wallet, s: Session)
    requires w.cycles == OPENED && s.orders == [] && Equity(Settle(w, s)) >= 110.0
    ensures var t, v := Settle(w, s), Tick(w, s);
            && |v.cycles| == 2 && v.cycles[0].no == 1 && v.cycles[0].target == 110.0 && v.cycles[1].banking.None?
            && v.positions == SellTheBook(t, s).positions && v.cycles[0].banking.Some?
            && v.cycles[0].banking.value.equityAtTarget == Equity(t)
            && v.cycles[0].banking.value.realised == Equity(SellTheBook(t, s))
  {
    var t := Settle(w, s);
    assert WithOpenCycle(w) == w && Trade(w, s) == t && t.cycles == OPENED;
    assert Running(OPENED) == Some(0) && OPENED[0].target == 110.0;
    assert Bank(t, s) == BankCycle(t, s, 0);
  }

  // --- Money counted twice ----------------------------------------------------------------------

  lemma {:induction false} PartialFigures(u: real)
    requires 9.8 < u < 9.97
    ensures SellProceeds(u, 1.4, LIQUIDITY) > 13.4 && 6.7 < SellProceeds(u * 0.5, 1.4, LIQUIDITY) < 7.0
    ensures SellProceeds(u - u * 0.5, 1.4, LIQUIDITY) < 7.0
  {
    Fetches(u, 1.4, 14.0);
    Fetches(u * 0.5, 1.4, 7.0);
    Fetches(u - u * 0.5, 1.4, 7.0);
  }

  /** The rule sells half of a bag, leaves the stored value where it was before the sale, and the rest fetches as
      much again. */
  lemma {:induction false} HalfIsSold(mint: string, u: real, value: real)
    requires (mint == "A" || mint == "B") && 9.8 < u < 9.97
    ensures var p := Bag(mint, u, value);
            var q, d := Kept(SettleDesk(PartialTick()), p), CycleDesk(PartialTick());
            && 6.7 < Paid(SettleDesk(PartialTick()), p) < 7.0 && ReportedValue(q) > 13.4
            && Paid(d, q) < 7.0 && ReportedValue(Kept(d, q)) == 0.0
  {
    PartialFigures(u);
  }

  lemma {:induction false} PartialBook(w: Wallet, u: real, value: real)
    requires Holds(w, u, value)
    ensures var t := Settle(w, PartialTick());
            Equity(t) >= 110.0 && Equity(SellTheBook(t, PartialTick())) < 108.0
  {
    var s := PartialTick();
    var a, b := Bag("A", u, value), Bag("B", u, value);
    HalfIsSold("A", u, value);
    HalfIsSold("B", u, value);
    BothSettled(w, a, b, s);
  }

  /** The equity of two positions settled, and then sold. */
  lemma {:induction false} BothSettled(w: Wallet, a: Position, b: Position, s: Session)
    requires w.positions == [a, b]
    ensures var t, d, e := Settle(w, s), SettleDesk(s), CycleDesk(s);
            && t.positions == [Kept(d, a), Kept(d, b)]
            && Equity(t) == w.cash + Paid(d, a) + Paid(d, b) + ReportedValue(Kept(d, a)) + ReportedValue(Kept(d, b))
            && SellTheBook(t, s).positions == [Kept(e, Kept(d, a)), Kept(e, Kept(d, b))]
            && Equity(SellTheBook(t, s)) == w.cash + Paid(d, a) + Paid(d, b) + Paid(e, Kept(d, a)) + Paid(e, Kept(d, b))
                                            + ReportedValue(Kept(e, Kept(d, a))) + ReportedValue(Kept(e, Kept(d, b)))
  {
    var t, d, e := Settle(w, s), SettleDesk(s), CycleDesk(s);
    SweepOfTwo(a, b, d);
    EquityOfTwo(t, Kept(d, a), Kept(d, b));
    SweepOfTwo(Kept(d, a), Kept(d, b), e);
    EquityOfTwo(SellTheBook(t, s), Kept(e, Kept(d, a)), Kept(e, Kept(d, b)));
  }

  /** The first cycle tripped its target and banked less than `limit`. */
  ghost predicate BankedUnder(v: Wallet, limit: real) {
    && |v.cycles| == 2 && v.cycles[0].no == 1 && v.cycles[0].target == 110.0 && v.cycles[0].banking.Some?
    && v.cycles[0].banking.value.equityAtTarget >= 110.0 && v.cycles[0].banking.value.realised < limit
  }

  lemma {:induction false} PartialTickBanksUnder(w: Wallet, u: real, value: real)
    requires Holds(w, u, value)
    ensures BankedUnder(Tick(w, PartialTick()), 108.0)
  {
    PartialBook(w, u, value);
    TripsAndBanks(w, PartialTick());
  }

  /** A run from a fresh wallet that trips its $110 target on a part sale counted twice, and banks under $108. */
  lemma {:induction false} PhantomTarget()
    ensures exists sessions: seq<Session> :: BankedUnder(History(FRESH, sessions), 108.0)
  {
    AfterFirstTick();
    PartialTickBanksUnder(Tick(FRESH, FirstTick()), Units(), SellProceeds(Units(), 1.0, LIQUIDITY));
    RunOfTwo(FRESH, FirstTick(), PartialTick());
  }

  // --- A mark that moves --------------------------------------------------------------------------

  lemma {:induction false} FallIsSold(mint: string, u: real, value: real)
    requires (mint == "A" || mint == "B") && 9.8 < u < 9.97
    ensures var p := Bag(mint, u, value);
            var q, d := Kept(SettleDesk(FallingTick()), p), CycleDesk(FallingTick());
            && Paid(SettleDesk(FallingTick()), p) == 0.0 && ReportedValue(q) > 16.0
            && Paid(d, q) < 10.0 && ReportedValue(Kept(d, q)) == 0.0
  {
    Fetches(u, 1.7, 17.0);
    Fetches(u, 1.0, 10.0);
  }

  lemma {:induction false} FallingTickBanksUnder(w: Wallet, u: real, value: real)
    requires Holds(w, u, value)
    ensures BankedUnder(Tick(w, FallingTick()), 100.0)
  {
    FallIsSold("A", u, value);
    FallIsSold("B", u, value);
    BothSettled(w, Bag("A", u, value), Bag("B", u, value), FallingTick());
    TripsAndBanks(w, FallingTick());
  }

  /** A run without a single part sale that trips its $110 target and banks under the $100 it started from, because
      the marks fell between the settlement and the sale. */
  lemma {:induction false} MovedMarkTarget()
    ensures exists sessions: seq<Session> :: BankedUnder(History(FRESH, sessions), 100.0)
  {
    AfterFirstTick();
    FallingTickBanksUnder(Tick(FRESH, FirstTick()), Units(), SellProceeds(Units(), 1.0, LIQUIDITY));
    RunOfTwo(FRESH, FirstTick(), FallingTick());
  }

  // --- A position left open -----------------------------------------------------------------------

  /** The first cycle is banked, the second is running, and a position of the first is still open. */
  ghost predicate StillOpen(v: Wallet) {
    && |v.cycles| == 2 && v.cycles[0].banking.Some? && v.cycles[1].banking.None?
    && exists i | 0 <= i < |v.positions| :: v.positions[i].open
  }

  lemma {:induction false} OneIsUnmarked(u: real, value: real)
    requires 9.8 < u < 9.97 && 9.0 < value < 10.0
    ensures var d, e := SettleDesk(UnmarkedTick()), CycleDesk(UnmarkedTick());
            var a, b := Bag("A", u, value), Bag("B", u, value);
            && Paid(d, a) == 0.0 && ReportedValue(Kept(d, a)) > 40.0
            && Paid(d, b) == 0.0 && ReportedValue(Kept(d, b)) > 9.0 && Kept(e, Kept(d, b)).open
  {
    Fetches(u, 5.0, 50.0);
  }

  lemma {:induction false} UnmarkedTickLeavesOneOpen(w: Wallet, u: real, value: real)
    requires Holds(w, u, value)
    ensures StillOpen(Tick(w, UnmarkedTick()))
  {
    var s := UnmarkedTick();
    OneIsUnmarked(u, value);
    BothSettled(w, Bag("A", u, value), Bag("B", u, value), s);
    TripsAndBanks(w, s);
    assert Tick(w, s).positions[1].open;
  }

  /** A run from a fresh wallet that banks its first cycle and opens the second with a position still open. */
  lemma {:induction false} CycleOpensOverAnOpenPosition()
    ensures exists sessions: seq<Session> :: StillOpen(History(FRESH, sessions))
  {
    AfterFirstTick();
    UnmarkedTickLeavesOneOpen(Tick(FRESH, FirstTick()), Units(), SellProceeds(Units(), 1.0, LIQUIDITY));
    RunOfTwo(FRESH, FirstTick(), UnmarkedTick());
  }
}
