/** What every run of the ratchet keeps, and what a banked cycle is really worth. */
module CompoundLedger {
  import opened Wrappers
  import opened Lab
  import opened Compound

  // --- The ledger invariant ---------------------------------------------------------------

  ghost predicate NumberedFromOne(cs: seq<Cycle>) {
    forall i | 0 <= i < |cs| :: cs[i].no == i + 1 && cs[i].target == TargetOf(cs[i].base)
  }

  /** Cycle 1 starts from the starting equity, every later one from what the one before it realised. */
  ghost predicate StartsFrom(cs: seq<Cycle>, i: nat, base: real)
    requires i <= |cs|
  {
    if i == 0 then base == STARTING_EQUITY
    else cs[i - 1].banking.Some? && base == cs[i - 1].banking.value.realised
  }

  ghost predicate Chained(cs: seq<Cycle>) {
    forall i {:trigger StartsFrom(cs, i, cs[i].base)} | 0 <= i < |cs| :: StartsFrom(cs, i, cs[i].base)
  }

  ghost predicate BankedAtTarget(cs: seq<Cycle>) {
    forall i | 0 <= i < |cs| && cs[i].banking.Some? :: cs[i].banking.value.equityAtTarget >= cs[i].target
  }

  ghost predicate LedgerOk(cs: seq<Cycle>) {
    NumberedFromOne(cs) && Chained(cs) && BankedAtTarget(cs)
  }

  ghost predicate IsRunning(cs: seq<Cycle>) {
    |cs| > 0 && cs[|cs| - 1].banking.None?
  }

  ghost predicate WalletOk(w: Wallet) {
    && w.cash >= 0.0
    && (forall i | 0 <= i < |w.positions| :: WellFormed(w.positions[i]))
    && w.cash + Staked(w.positions) == STARTING_EQUITY + TotalCredited(w.positions)
    && LedgerOk(w.cycles)
  }

  /** Banked rows are never touched again and no row is ever lost. */
  ghost predicate LedgerExtends(cs: seq<Cycle>, ds: seq<Cycle>) {
    && |cs| <= |ds|
    && forall i | 0 <= i < |cs| :: ds[i] == cs[i] || (cs[i].banking.None? && ds[i].(banking := None) == cs[i])
  }

  // --- Every step keeps it ------------------------------------------------------------------

  lemma {:induction false} SweepKeepsTheBooks(ps: seq<Position>, d: Desk)
    requires forall i | 0 <= i < |ps| :: WellFormed(ps[i])
    ensures var r := SweepBook(ps, d);
            && (forall i | 0 <= i < |ps| :: WellFormed(r.positions[i]))
            && r.credit >= 0.0
            && Staked(r.positions) == Staked(ps)
            && TotalCredited(r.positions) == TotalCredited(ps) + r.credit
  {
    if ps != [] {
      assert forall i | 0 <= i < |ps[1..]| :: ps[1..][i] == ps[i + 1];
      SweepKeepsTheBooks(ps[1..], d);
      var r, rest := SweepBook(ps, d), SweepBook(ps[1..], d);
      assert r.positions[1..] == rest.positions;
      assert WellFormed(ps[0]);
      forall i | 0 <= i < |ps| ensures WellFormed(r.positions[i]) {
        if i > 0 { assert r.positions[i] == rest.positions[i - 1]; }
      }
    }
  }

  lemma {:induction false} BuyKeepsTheBooks(w: Wallet, orders: seq<Order>)
    requires WalletOk(w)
    ensures WalletOk(Buy(w, orders)) && Buy(w, orders).cycles == w.cycles
    decreases |orders|
  {
    if orders != [] {
      var o := orders[0];
      if w.cash < o.size || Fill(o).None? {
        BuyKeepsTheBooks(w, orders[1..]);
      } else {
        var p := Bought(o, Fill(o).value);
        SumsAfterAppend(w.positions, p);
        BuyKeepsTheBooks(w.(cash := w.cash - o.size, positions := w.positions + [p]), orders[1..]);
      }
    }
  }

  lemma {:induction false} TradeKeepsTheBooks(w: Wallet, s: Session)
    requires WalletOk(w)
    ensures WalletOk(Trade(w, s)) && Trade(w, s).cycles == w.cycles
  {
    BuyKeepsTheBooks(w, s.orders);
    var b := Buy(w, s.orders);
    SweepKeepsTheBooks(b.positions, SettleDesk(s));
  }

  lemma {:induction false} OpenCycleKeepsTheLedger(cs: seq<Cycle>)
    requires LedgerOk(cs)
    ensures LedgerOk(OpenCycle(cs)) && IsRunning(OpenCycle(cs)) && LedgerExtends(cs, OpenCycle(cs))
    ensures Running(OpenCycle(cs)) == Some(|OpenCycle(cs)| - 1)
    ensures IsRunning(cs) ==> OpenCycle(cs) == cs
  {
    var ds := OpenCycle(cs);
    forall i | 0 <= i < |cs| - 1 ensures cs[i].banking.Some? { assert StartsFrom(cs, i + 1, cs[i + 1].base); }
    forall i | 0 <= i < |ds| ensures StartsFrom(ds, i, ds[i].base) {
      if i < |cs| { assert StartsFrom(cs, i, cs[i].base); }
    }
  }

  /** The ledger with its running cycle banked. */
  function WithBanking(cs: seq<Cycle>, b: Banking): seq<Cycle>
    requires |cs| > 0
  {
    cs[|cs| - 1 := cs[|cs| - 1].(banking := Some(b))]
  }

  lemma {:induction false} BankingKeepsTheLedger(cs: seq<Cycle>, b: Banking)
    requires LedgerOk(cs) && IsRunning(cs) && b.equityAtTarget >= cs[|cs| - 1].target
    ensures LedgerOk(WithBanking(cs, b)) && Running(WithBanking(cs, b)).None?
    ensures LedgerExtends(cs, OpenCycle(WithBanking(cs, b)))
  {
    var ds := WithBanking(cs, b);
    forall i | 0 <= i < |ds| ensures StartsFrom(ds, i, ds[i].base) && ds[i].banking.Some? {
      assert StartsFrom(cs, i, cs[i].base);
      if i + 1 < |cs| { assert StartsFrom(cs, i + 1, cs[i + 1].base); }
    }
  }

  /** Banking the running cycle and opening the next keeps the ledger, past entries untouched. */
  lemma {:induction false} BankedLedger(cs: seq<Cycle>, b: Banking)
    requires LedgerOk(cs) && IsRunning(cs) && b.equityAtTarget >= cs[|cs| - 1].target
    ensures var ds := OpenCycle(WithBanking(cs, b));
            LedgerOk(ds) && IsRunning(ds) && LedgerExtends(cs, ds) && |ds| == |cs| + 1
  {
    BankingKeepsTheLedger(cs, b);
    OpenCycleKeepsTheLedger(WithBanking(cs, b));
  }

  lemma {:induction false} SaleKeepsTheWallet(w: Wallet, s: Session)
    requires WalletOk(w)
    ensures WalletOk(SellTheBook(w, s)) && SellTheBook(w, s).cycles == w.cycles
  {
    SweepKeepsTheBooks(w.positions, CycleDesk(s));
  }

  /** What the running cycle records when it is banked. */
  function BankingOf(w: Wallet, s: Session): Banking {
    Banking(s.now, Equity(w), Equity(SellTheBook(w, s)), SweepBook(w.positions, CycleDesk(s)).sold)
  }

  lemma {:induction false} BankIsSaleAndLedger(w: Wallet, s: Session)
    requires LedgerOk(w.cycles) && IsRunning(w.cycles) && Equity(w) >= w.cycles[|w.cycles| - 1].target
    ensures Bank(w, s) == BankCycle(w, s, |w.cycles| - 1)
    ensures Bank(w, s) == SellTheBook(w, s).(cycles := OpenCycle(WithBanking(w.cycles, BankingOf(w, s))))
  {
    OpenCycleKeepsTheLedger(w.cycles);
  }

  lemma {:induction false} BankKeepsTheBooks(w: Wallet, s: Session)
    requires WalletOk(w) && IsRunning(w.cycles)
    ensures var v := Bank(w, s);
            && WalletOk(v) && IsRunning(v.cycles) && LedgerExtends(w.cycles, v.cycles)
            && (if Equity(w) < w.cycles[|w.cycles| - 1].target then v == w
                else v == BankCycle(w, s, |w.cycles| - 1) && |v.cycles| == |w.cycles| + 1)
  {
    if Equity(w) >= w.cycles[|w.cycles| - 1].target {
      SaleKeepsTheWallet(w, s);
      BankIsSaleAndLedger(w, s);
      BankedLedger(w.cycles, BankingOf(w, s));
    } else {
      OpenCycleKeepsTheLedger(w.cycles);
    }
  }

  /** A tick keeps every invariant, rewrites no banked cycle, and banks at most one. */
  lemma {:induction false} TickIsSafe(w: Wallet, s: Session)
    requires WalletOk(w)
    ensures var v := Tick(w, s);
            && WalletOk(v) && IsRunning(v.cycles) && LedgerExtends(w.cycles, v.cycles)
            && |v.cycles| <= |OpenCycle(w.cycles)| + 1
  {
    OpenCycleKeepsTheLedger(w.cycles);
    TradeKeepsTheBooks(WithOpenCycle(w), s);
    BankKeepsTheBooks(Trade(WithOpenCycle(w), s), s);
  }

  /** Over every run the ledger is gapless, only its last cycle can be running, and each base is what was realised. */
  lemma {:induction false} EveryRunIsSafe(w: Wallet, sessions: seq<Session>)
    requires WalletOk(w)
    ensures WalletOk(History(w, sessions)) && LedgerExtends(w.cycles, History(w, sessions).cycles)
    ensures sessions != [] ==> IsRunning(History(w, sessions).cycles)
    decreases |sessions|
  {
    if sessions != [] {
      TickIsSafe(w, sessions[0]);
      EveryRunIsSafe(Tick(w, sessions[0]), sessions[1..]);
      if sessions[1..] == [] {
        assert History(w, sessions) == Tick(w, sessions[0]);
      }
    }
  }

  function BankedGain(cs: seq<Cycle>): real {
    if cs == [] then 0.0
    else
      var c := cs[|cs| - 1];
      BankedGain(cs[..|cs| - 1]) + if c.banking.Some? then c.banking.value.realised - c.base else 0.0
  }

  /** The gains of the banked cycles add up to how far the current base stands above the start. */
  lemma {:induction false} GainsTelescope(cs: seq<Cycle>)
    requires LedgerOk(cs) && IsRunning(cs)
    ensures BankedGain(cs) == cs[|cs| - 1].base - STARTING_EQUITY
    decreases |cs|
  {
    assert StartsFrom(cs, |cs| - 1, cs[|cs| - 1].base);
    if |cs| > 1 {
      var before := cs[..|cs| - 1];
      var c := before[|before| - 1];
      var reopened := before[|before| - 1 := c.(banking := None)];
      forall i | 0 <= i < |reopened| ensures StartsFrom(reopened, i, reopened[i].base) {
        assert StartsFrom(cs, i, cs[i].base);
      }
      GainsTelescope(reopened);
      assert reopened[..|reopened| - 1] == before[..|before| - 1];
    } else {
      assert BankedGain(cs[..0]) == 0.0;
    }
  }

  /** Right after banking, the wallet stands strictly below its new target as long as it has anything. */
  lemma {:induction false} FreshCycleIsNotAlreadyReached(w: Wallet, s: Session)
    requires WalletOk(w) && IsRunning(w.cycles) && |Bank(w, s).cycles| > |w.cycles|
    ensures var v := Bank(w, s);
            v.cycles[|v.cycles| - 1].base == Equity(v) && (Equity(v) > 0.0 ==>
              Equity(v) < v.cycles[|v.cycles| - 1].target)
  {
  }

  // --- What a banked cycle is worth -----------------------------------------------------------

  /** The exit rules take no partial profits in this session. */
  ghost predicate NoPartials(s: Session) {
    forall p: Position, m: Option<Mark> :: !s.judge(p, m).Partial?
  }

  /** The stored value of every markable open position is the one this session's mark gives. */
  ghost predicate FreshlyMarked(ps: seq<Position>, mark: Holding -> Option<Mark>) {
    forall i | 0 <= i < |ps| && ps[i].open && mark(HoldingOf(ps[i])).Some? :: MarkedAt(ps[i], mark)
  }

  lemma {:induction false} SettlingMarks(p: Position, s: Session)
    requires NoPartials(s)
    ensures var sale := Offer(SettleDesk(s), p);
            var q := if sale.Sold? then sale.position else p;
            q.banked == p.banked && (q.open && s.mark(HoldingOf(q)).Some? ==> MarkedAt(q, s.mark))
  {
    var m := s.mark(HoldingOf(p));
    if Offer(SettleDesk(s), p).Sold? {
      SettleMarks(p, m, s.judge(p, m));
    }
  }

  lemma {:induction false} SettleMarksTheBook(w: Wallet, s: Session)
    requires NoPartials(s)
    ensures FreshlyMarked(Settle(w, s).positions, s.mark)
    ensures forall i | 0 <= i < |w.positions| :: Settle(w, s).positions[i].banked == w.positions[i].banked
  {
    var ps, qs := w.positions, Settle(w, s).positions;
    forall i | 0 <= i < |ps|
      ensures qs[i].open && s.mark(HoldingOf(qs[i])).Some? ==> MarkedAt(qs[i], s.mark)
      ensures qs[i].banked == ps[i].banked
    {
      SettlingMarks(ps[i], s);
    }
  }

  /** By how much the stored value of a position that could be sold now exceeds what it would fetch. */
  function Overstated(p: Position, mark: Holding -> Option<Mark>): real {
    var m := mark(HoldingOf(p));
    if p.open && m.Some? then ReportedValue(p) - ExecutableValue(p, m.value) else 0.0
  }

  function Overstatement(ps: seq<Position>, mark: Holding -> Option<Mark>): real {
    if ps == [] then 0.0 else Overstated(ps[0], mark) + Overstatement(ps[1..], mark)
  }

  lemma {:induction false} SaleRealises(ps: seq<Position>, s: Session)
    ensures var r := SweepBook(ps, CycleDesk(s));
            r.credit + OpenValue(r.positions) == OpenValue(ps) - Overstatement(ps, s.saleMark)
  {
    if ps != [] {
      SaleRealises(ps[1..], s);
      var r, rest := SweepBook(ps, CycleDesk(s)), SweepBook(ps[1..], CycleDesk(s));
      assert r.positions[1..] == rest.positions;
    }
  }

  /** Selling any book realises its reported equity less what the stored values of the sold positions overstate. */
  lemma {:induction false} RealisedIsEquityLessOverstatement(w: Wallet, s: Session)
    ensures Equity(SellTheBook(w, s)) == Equity(w) - Overstatement(w.positions, s.saleMark)
  {
    SaleRealises(w.positions, s);
  }

  /** What the slice sold in this very tick was worth: the stored value was taken before that sale. */
  function SliceWorth(p: Position, q: Position, m: Mark): real {
    ExecutableValue(p, m) - ExecutableValue(q, m)
  }

  /** What the position lost between the settlement's mark and the sale's. */
  function Slipped(q: Position, settled: Mark, sold: Mark): real {
    ExecutableValue(q, settled) - ExecutableValue(q, sold)
  }

  /** By how much a settlement leaves this position overstated for the sale that may follow: what it had banked
      before, the slice it sold just now, and the move of its mark; or, where the settlement could not mark it, the
      age of its stored value. */
  function LeftOverstated(p: Position, s: Session): real {
    var sale := Offer(SettleDesk(s), p);
    var q := if sale.Sold? then sale.position else p;
    var m := s.saleMark(HoldingOf(q));
    if !q.open || m.None? then 0.0
    else if sale.Sold? then
      var settled := s.mark(HoldingOf(p)).value;
      p.banked + SliceWorth(p, q, settled) + Slipped(q, settled, m.value)
    else ReportedValue(p) - ExecutableValue(p, m.value)
  }

  function LeftOverstatedIn(ps: seq<Position>, s: Session): real {
    if ps == [] then 0.0 else LeftOverstated(ps[0], s) + LeftOverstatedIn(ps[1..], s)
  }

  lemma {:induction false} SettlementOverstates(ps: seq<Position>, s: Session)
    ensures Overstatement(SweepBook(ps, SettleDesk(s)).positions, s.saleMark) == LeftOverstatedIn(ps, s)
  {
    if ps != [] {
      SettlementOverstates(ps[1..], s);
      var r, rest := SweepBook(ps, SettleDesk(s)), SweepBook(ps[1..], SettleDesk(s));
      assert r.positions[1..] == rest.positions;
      SettledOne(ps[0], s);
    }
  }

  lemma {:induction false} SettledOne(p: Position, s: Session)
    ensures var sale := Offer(SettleDesk(s), p);
            Overstated(if sale.Sold? then sale.position else p, s.saleMark) == LeftOverstated(p, s)
  {
  }

  /** Whatever the exit rules did in a tick, and however the marks moved before the sale, this is how far the equity
      the target is tested on stands above what selling the book then realises. */
  lemma {:induction false} SettledEquityExceedsRealisedBy(w: Wallet, s: Session)
    ensures Equity(Settle(w, s)) - Equity(SellTheBook(Settle(w, s), s)) == LeftOverstatedIn(w.positions, s)
  {
    RealisedIsEquityLessOverstatement(Settle(w, s), s);
    SettlementOverstates(w.positions, s);
  }

  /** A live print that moves neither with the part of the position that goes nor before the sale. */
  ghost predicate Steady(p: Position, s: Session) {
    var m, sale := s.mark(HoldingOf(p)), Offer(SettleDesk(s), p);
    && m.Some? && !m.value.dead && m.value.price > 0.0 && m.value.liquidity > 0.0
    && (sale.Sold? ==> s.saleMark(HoldingOf(sale.position)) == m)
  }

  /** At a steady price a position is left at its true worth exactly when it closed, or has neither sold a part
      before nor sells one now. */
  lemma {:induction false} TrueWorthExactlyWhenNothingSold(p: Position, s: Session)
    requires WellFormed(p) && p.open && Steady(p, s)
    ensures LeftOverstated(p, s) >= 0.0
    ensures LeftOverstated(p, s) == 0.0 <==>
            !Offer(SettleDesk(s), p).position.open || (p.banked == 0.0 && !s.judge(p, s.mark(HoldingOf(p))).Partial?)
  {
    var m, sale := s.mark(HoldingOf(p)).value, Offer(SettleDesk(s), p);
    if sale.position.open && s.judge(p, Some(m)).Partial? {
      MoreFetchesMore(sale.position.remaining, p.remaining, m.price, m.liquidity);
    }
  }

  function BankedInSold(ps: seq<Position>, mark: Holding -> Option<Mark>): real {
    if ps == [] then 0.0
    else (if ps[0].open && mark(HoldingOf(ps[0])).Some? then ps[0].banked else 0.0) + BankedInSold(ps[1..], mark)
  }

  lemma {:induction false} FreshMarksOverstateTheBanked(ps: seq<Position>, mark: Holding -> Option<Mark>)
    requires FreshlyMarked(ps, mark)
    ensures Overstatement(ps, mark) == BankedInSold(ps, mark)
  {
    if ps != [] {
      assert forall i | 0 <= i < |ps[1..]| :: ps[1..][i] == ps[i + 1];
      FreshMarksOverstateTheBanked(ps[1..], mark);
      if ps[0].open && mark(HoldingOf(ps[0])).Some? {
        assert MarkedAt(ps[0], mark);
      }
    }
  }

  lemma {:induction false} BankedInSoldIsZero(ps: seq<Position>, mark: Holding -> Option<Mark>)
    requires forall i | 0 <= i < |ps| :: ps[i].banked >= 0.0
    ensures BankedInSold(ps, mark) >= 0.0
    ensures BankedInSold(ps, mark) == 0.0 <==>
            forall i | 0 <= i < |ps| :: ps[i].open && mark(HoldingOf(ps[i])).Some? ==> ps[i].banked == 0.0
  {
    if ps != [] {
      assert forall i | 0 <= i < |ps[1..]| :: ps[1..][i] == ps[i + 1];
      BankedInSoldIsZero(ps[1..], mark);
      assert forall i | 0 < i < |ps| :: ps[i] == ps[1..][i - 1];
    }
  }

  /** The equity a freshly marked cycle trips on is what the sale realises plus whatever partial sales of the sold
      positions had already paid into cash: the two agree exactly when none of them had sold anything before. */
  lemma {:induction false} RealisedIsEquityLessBanked(w: Wallet, s: Session)
    requires WalletOk(w) && FreshlyMarked(w.positions, s.saleMark)
    ensures Equity(SellTheBook(w, s)) == Equity(w) - BankedInSold(w.positions, s.saleMark) <= Equity(w)
    ensures Equity(SellTheBook(w, s)) == Equity(w) <==>
            forall i | 0 <= i < |w.positions| ::
              w.positions[i].open && s.saleMark(HoldingOf(w.positions[i])).Some? ==> w.positions[i].banked == 0.0
  {
    SaleRealises(w.positions, s);
    FreshMarksOverstateTheBanked(w.positions, s.saleMark);
    BankedInSoldIsZero(w.positions, s.saleMark);
  }

  /** A banked cycle leaves the book flat exactly when every open position could be marked; the tick never checks. */
  lemma {:induction false} BooksAreFlatExactlyWhenMarkable(w: Wallet, s: Session)
    requires WalletOk(w) && IsRunning(w.cycles) && |Bank(w, s).cycles| > |w.cycles|
    ensures (forall i | 0 <= i < |Bank(w, s).positions| :: !Bank(w, s).positions[i].open) <==>
            (forall i | 0 <= i < |w.positions| && w.positions[i].open :: s.saleMark(HoldingOf(w.positions[i])).Some?)
  {
  }

  // --- Growth -------------------------------------------------------------------------------------

  function Power(x: real, n: nat): real {
    if n == 0 then 1.0 else x * Power(x, n - 1)
  }

  /** The sale lost no more than the share `slip` of the equity its cycle tripped on. */
  ghost predicate Slips(b: Banking, slip: real) {
    b.realised >= (1.0 - slip) * b.equityAtTarget
  }

  ghost predicate SlipsAtMost(cs: seq<Cycle>, slip: real) {
    forall i | 0 <= i < |cs| && cs[i].banking.Some? :: Slips(cs[i].banking.value, slip)
  }

  lemma {:induction false} GrowthStep(slip: real, base: real, tripped: real, realised: real, floor: real)
    requires 0.0 <= slip <= 1.0 && tripped >= base * CYCLE_TARGET_MULTIPLE && realised >= (1.0 - slip) * tripped
    requires base >= floor
    ensures realised >= CYCLE_TARGET_MULTIPLE * (1.0 - slip) * floor
  {
  }

  /** After n banked cycles the base has grown at least n times by the multiple less the slippage. */
  lemma {:induction false} BaseGrowsGeometrically(cs: seq<Cycle>, slip: real, n: nat)
    requires LedgerOk(cs) && SlipsAtMost(cs, slip) && 0.0 <= slip <= 1.0 && n < |cs|
    ensures cs[n].base >= STARTING_EQUITY * Power(CYCLE_TARGET_MULTIPLE * (1.0 - slip), n)
  {
    assert StartsFrom(cs, n, cs[n].base);
    if n > 0 {
      BaseGrowsGeometrically(cs, slip, n - 1);
      var x := CYCLE_TARGET_MULTIPLE * (1.0 - slip);
      var bank := cs[n - 1].banking.value;
      assert Slips(bank, slip);
      GrowthStep(slip, cs[n - 1].base, bank.equityAtTarget, bank.realised, STARTING_EQUITY * Power(x, n - 1));
      assert x * (STARTING_EQUITY * Power(x, n - 1)) == STARTING_EQUITY * (x * Power(x, n - 1));
    }
  }

  /** The book a tick holds when it tests its target. */
  function Tested(w: Wallet, s: Session): Wallet {
    Trade(WithOpenCycle(w), s)
  }

  /** Every banked cycle realised at least what `keep` makes of the equity it tripped on. */
  ghost predicate Keeps(cs: seq<Cycle>, keep: real -> real) {
    forall i | 0 <= i < |cs| && cs[i].banking.Some? ::
      cs[i].banking.value.realised >= keep(cs[i].banking.value.equityAtTarget)
  }

  /** A tick that banks realises at least what `keep` makes of the equity it tripped on. */
  ghost predicate TestKeeps(t: Wallet, s: Session, keep: real -> real) {
    Bank(t, s) != t ==> Equity(SellTheBook(t, s)) >= keep(Equity(t))
  }

  ghost predicate RunKeeps(w: Wallet, sessions: seq<Session>, keep: real -> real)
    decreases |sessions|
  {
    sessions == [] ||
    (&& TestKeeps(Tested(w, sessions[0]), sessions[0], keep)
     && RunKeeps(Tick(w, sessions[0]), sessions[1..], keep))
  }

  lemma {:induction false} BankedLedgerKeeps(cs: seq<Cycle>, b: Banking, keep: real -> real)
    requires LedgerOk(cs) && IsRunning(cs) && b.equityAtTarget >= cs[|cs| - 1].target
    requires Keeps(cs, keep) && b.realised >= keep(b.equityAtTarget)
    ensures Keeps(OpenCycle(WithBanking(cs, b)), keep)
  {
    BankingKeepsTheLedger(cs, b);
  }

  lemma {:induction false} BankKeepsAsMuch(t: Wallet, s: Session, keep: real -> real)
    requires WalletOk(t) && IsRunning(t.cycles) && Keeps(t.cycles, keep) && TestKeeps(t, s, keep)
    ensures Keeps(Bank(t, s).cycles, keep)
  {
    BankKeepsTheBooks(t, s);
    if Bank(t, s) != t {
      BankIsSaleAndLedger(t, s);
      BankedLedgerKeeps(t.cycles, BankingOf(t, s), keep);
    }
  }

  lemma {:induction false} TickKeeps(w: Wallet, s: Session, keep: real -> real)
    requires WalletOk(w) && Keeps(w.cycles, keep) && TestKeeps(Tested(w, s), s, keep)
    ensures Keeps(Tick(w, s).cycles, keep)
  {
    OpenCycleKeepsTheLedger(w.cycles);
    TradeKeepsTheBooks(WithOpenCycle(w), s);
    BankKeepsAsMuch(Tested(w, s), s, keep);
  }

  lemma {:induction false} EveryRunKeeps(w: Wallet, sessions: seq<Session>, keep: real -> real)
    requires WalletOk(w) && Keeps(w.cycles, keep) && RunKeeps(w, sessions, keep)
    ensures Keeps(History(w, sessions).cycles, keep)
    decreases |sessions|
  {
    if sessions != [] {
      TickIsSafe(w, sessions[0]);
      TickKeeps(w, sessions[0], keep);
      EveryRunKeeps(Tick(w, sessions[0]), sessions[1..], keep);
    }
  }

  /** All but the share `slip`. */
  function AllBut(slip: real): real -> real {
    (equity: real) => (1.0 - slip) * equity
  }

  /** Each base is at least the start, compounded at `rate` once a cycle. */
  ghost predicate GrownBy(cs: seq<Cycle>, rate: real) {
    forall n | 0 <= n < |cs| :: cs[n].base >= STARTING_EQUITY * Power(rate, n)
  }

  /** Over every run, partials and moving marks included, the base compounds at the multiple less the worst loss of a
      sale. */
  lemma {:induction false} RatchetCompoundsLessItsLosses(w: Wallet, sessions: seq<Session>, slip: real)
    requires WalletOk(w) && SlipsAtMost(w.cycles, slip) && 0.0 <= slip <= 1.0 && RunKeeps(w, sessions, AllBut(slip))
    ensures GrownBy(History(w, sessions).cycles, CYCLE_TARGET_MULTIPLE * (1.0 - slip))
  {
    var cs := History(w, sessions).cycles;
    SlipIsKeeping(w.cycles, slip);
    EveryRunKeeps(w, sessions, AllBut(slip));
    SlipIsKeeping(cs, slip);
    EveryRunIsSafe(w, sessions);
    LedgerGrows(cs, slip);
  }

  lemma {:induction false} SlipIsKeeping(cs: seq<Cycle>, slip: real)
    ensures SlipsAtMost(cs, slip) <==> Keeps(cs, AllBut(slip))
  {
    assert forall i | 0 <= i < |cs| && cs[i].banking.Some? ::
        Slips(cs[i].banking.value, slip) <==>
          cs[i].banking.value.realised >= AllBut(slip)(cs[i].banking.value.equityAtTarget);
  }

  lemma {:induction false} LedgerGrows(cs: seq<Cycle>, slip: real)
    requires LedgerOk(cs) && SlipsAtMost(cs, slip) && 0.0 <= slip <= 1.0
    ensures GrownBy(cs, CYCLE_TARGET_MULTIPLE * (1.0 - slip))
  {
    forall n | 0 <= n < |cs| ensures cs[n].base >= STARTING_EQUITY * Power(CYCLE_TARGET_MULTIPLE * (1.0 - slip), n) {
      BaseGrowsGeometrically(cs, slip, n);
    }
  }

  ghost predicate NothingBankedYet(w: Wallet) {
    && (forall i | 0 <= i < |w.positions| :: w.positions[i].banked == 0.0)
    && forall i | 0 <= i < |w.cycles| && w.cycles[i].banking.Some? ::
         w.cycles[i].banking.value.realised == w.cycles[i].banking.value.equityAtTarget
  }

  lemma {:induction false} BuyBanksNothing(w: Wallet, orders: seq<Order>)
    requires NothingBankedYet(w)
    ensures NothingBankedYet(Buy(w, orders))
    decreases |orders|
  {
    if orders != [] {
      var o := orders[0];
      var next := if w.cash < o.size || Fill(o).None? then w
                  else w.(cash := w.cash - o.size, positions := w.positions + [Bought(o, Fill(o).value)]);
      BuyBanksNothing(next, orders[1..]);
    }
  }

  lemma {:induction false} BankingLosesNothing(w: Wallet, s: Session)
    requires WalletOk(w) && IsRunning(w.cycles) && NothingBankedYet(w) && FreshlyMarked(w.positions, s.saleMark)
    ensures NothingBankedYet(Bank(w, s))
  {
    BankKeepsTheBooks(w, s);
    RealisedIsEquityLessBanked(w, s);
    var n, v := |w.cycles| - 1, Bank(w, s);
    if v != w {
      BankIsSaleAndLedger(w, s);
      BankingKeepsTheLedger(w.cycles, BankingOf(w, s));
      assert forall i | 0 <= i < |w.positions| :: v.positions[i].banked == w.positions[i].banked;
      forall i | 0 <= i < |v.cycles| && v.cycles[i].banking.Some?
        ensures v.cycles[i].banking.value.realised == v.cycles[i].banking.value.equityAtTarget
      {
        if i < n { assert v.cycles[i] == w.cycles[i]; }
      }
    }
  }

  /** Whatever the sale could mark is marked as the settlement marked it. */
  ghost predicate Firm(ps: seq<Position>, s: Session) {
    forall i | 0 <= i < |ps| && ps[i].open && s.saleMark(HoldingOf(ps[i])).Some? ::
      s.mark(HoldingOf(ps[i])) == s.saleMark(HoldingOf(ps[i]))
  }

  /** The marks stand still between settlement and sale in every tick that banks. */
  ghost predicate FirmRun(w: Wallet, sessions: seq<Session>)
    decreases |sessions|
  {
    sessions == [] ||
    (var t := Tested(w, sessions[0]);
     && (Bank(t, sessions[0]) != t ==> Firm(t.positions, sessions[0]))
     && FirmRun(Tick(w, sessions[0]), sessions[1..]))
  }

  lemma {:induction false} TickWithoutPartials(w: Wallet, s: Session)
    requires WalletOk(w) && NothingBankedYet(w) && NoPartials(s)
    requires Bank(Tested(w, s), s) != Tested(w, s) ==> Firm(Tested(w, s).positions, s)
    ensures NothingBankedYet(Tick(w, s))
  {
    var a, t := WithOpenCycle(w), Tested(w, s);
    OpenCycleKeepsTheLedger(w.cycles);
    BuyBanksNothing(a, s.orders);
    TradeKeepsTheBooks(a, s);
    SettleMarksTheBook(Buy(a, s.orders), s);
    BuyKeepsTheBooks(a, s.orders);
    if Bank(t, s) != t {
      FirmMarksAreFresh(t.positions, s);
      BankingLosesNothing(t, s);
    }
  }

  lemma {:induction false} FirmMarksAreFresh(ps: seq<Position>, s: Session)
    requires FreshlyMarked(ps, s.mark) && Firm(ps, s)
    ensures FreshlyMarked(ps, s.saleMark)
  {
    forall i | 0 <= i < |ps| && ps[i].open && s.saleMark(HoldingOf(ps[i])).Some? ensures MarkedAt(ps[i], s.saleMark) {
      assert MarkedAt(ps[i], s.mark);
    }
  }

  /** A registry that never takes a partial, in a run whose marks stand still between settlement and sale, loses
      nothing by banking: each cycle realises exactly the equity it tripped on, so the base has at least compounded
      at the full multiple. */
  lemma {:induction false} RatchetCompoundsInFull(w: Wallet, sessions: seq<Session>)
    requires WalletOk(w) && NothingBankedYet(w) && FirmRun(w, sessions)
    requires forall i | 0 <= i < |sessions| :: NoPartials(sessions[i])
    ensures var v := History(w, sessions);
            WalletOk(v) && NothingBankedYet(v) && GrownBy(v.cycles, CYCLE_TARGET_MULTIPLE)
    decreases |sessions|
  {
    if sessions == [] {
      forall n | 0 <= n < |w.cycles| ensures w.cycles[n].base >= STARTING_EQUITY * Power(CYCLE_TARGET_MULTIPLE, n) {
        BaseGrowsGeometrically(w.cycles, 0.0, n);
      }
    } else {
      TickIsSafe(w, sessions[0]);
      TickWithoutPartials(w, sessions[0]);
      assert forall i | 0 <= i < |sessions[1..]| :: sessions[1..][i] == sessions[i + 1];
      RatchetCompoundsInFull(Tick(w, sessions[0]), sessions[1..]);
    }
  }
}
