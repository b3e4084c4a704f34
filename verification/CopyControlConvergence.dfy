/** Reconciliation from state: while the leaders stand still, two ticks bring every open pair to its leader's capital
    and no more than its leader's remaining share, whatever the clock, the prices and the settlements in between do,
    and every later tick leaves it there. */
module CopyControlConvergence {
  import opened Wrappers
  import opened Lab
  import opened CopyControl
  import opened CopyControlSafety

  type Leaders = map<nat, LeaderPosition>

  /** A row of a loop over the book, and the market as that row's turn saw it. */
  datatype Visit = Visit(pair: nat, market: Market)

  /** One `_reconcile` loop, over the pairs in whatever order the database returned them. */
  function Pass(b: Book, visits: seq<Visit>): (r: Book)
    requires Sound(b)
    ensures Sound(r) && |r.pairs| == |b.pairs|
    decreases |visits|
  {
    if visits == [] then b
    else
      SoundReconcile(b, visits[0].pair, visits[0].market);
      Pass(ReconcileOne(b, visits[0].pair, visits[0].market).book, visits[1..])
  }

  function ReconcileActions(visits: seq<Visit>): seq<Action> {
    seq(|visits|, k requires 0 <= k < |visits| => Reconciling(visits[k].pair, visits[k].market))
  }

  /** A pass is exactly the reconciling stretch of a tick, and it never aborts. */
  lemma {:induction false} PassIsARun(b: Book, visits: seq<Visit>)
    requires Sound(b)
    ensures Run(b, ReconcileActions(visits)).Done?
    ensures Run(b, ReconcileActions(visits)).book == Pass(b, visits)
    decreases |visits|
  {
    if visits != [] {
      SoundReconcile(b, visits[0].pair, visits[0].market);
      assert ReconcileActions(visits)[1..] == ReconcileActions(visits[1..]);
      PassIsARun(ReconcileOne(b, visits[0].pair, visits[0].market).book, visits[1..]);
    }
  }

  /** One `settle` loop. */
  function SettlePass(b: Book, visits: seq<Visit>): (r: Book)
    requires Sound(b)
    ensures Sound(r) && |r.pairs| == |b.pairs|
    decreases |visits|
  {
    if visits == [] then b else SettlePass(SettlePair(b, visits[0].pair, visits[0].market).book, visits[1..])
  }

  function SettleActions(visits: seq<Visit>): seq<Action> {
    seq(|visits|, k requires 0 <= k < |visits| => Settling(visits[k].pair, visits[k].market))
  }

  lemma {:induction false} SettlePassIsARun(b: Book, visits: seq<Visit>)
    requires Sound(b)
    ensures Run(b, SettleActions(visits)).Done?
    ensures Run(b, SettleActions(visits)).book == SettlePass(b, visits)
    decreases |visits|
  {
    if visits != [] {
      assert SettleActions(visits)[1..] == SettleActions(visits[1..]);
      SettlePassIsARun(SettlePair(b, visits[0].pair, visits[0].market).book, visits[1..]);
    }
  }

  /** A tick with no signals in it. */
  datatype Quiet = Quiet(reconciling: seq<Visit>, settling: seq<Visit>)

  function QuietActions(t: Quiet): seq<Action> {
    ReconcileActions(t.reconciling) + SettleActions(t.settling)
  }

  lemma {:induction false} QuietTickIsTwoPasses(b: Book, t: Quiet)
    requires Sound(b)
    ensures Run(b, QuietActions(t)).Done?
    ensures Transact(b, QuietActions(t)) == SettlePass(Pass(b, t.reconciling), t.settling)
  {
    PassIsARun(b, t.reconciling);
    SettlePassIsARun(Pass(b, t.reconciling), t.settling);
    RunAppend(b, ReconcileActions(t.reconciling), SettleActions(t.settling));
  }

  // --- What a pair needs -----------------------------------------------------------------

  /** The leader of an open pair is known, holds something, and has at least our capital. */
  ghost predicate Led(p: Pair, leaders: Leaders) {
    p.pos.open ==>
      && p.leader in leaders
      && p.pos.size <= leaders[p.leader].size
      && leaders[p.leader].quantity > 0.0 && leaders[p.leader].remaining > 0.0
  }

  function Gap(p: Pair, leaders: Leaders): real {
    if p.pos.open && p.leader in leaders then leaders[p.leader].size - p.pos.size else 0.0
  }

  function OurShare(p: Pair): real
    requires PairOk(p)
  {
    Share(p.pos.remaining, p.pos.quantity)
  }

  function LeaderShare(p: Pair, leaders: Leaders): real
    requires Led(p, leaders) && p.pos.open
  {
    Share(leaders[p.leader].remaining, leaders[p.leader].quantity)
  }

  ghost predicate SameSize(p: Pair, leaders: Leaders) {
    p.pos.open ==> p.leader in leaders && p.pos.size == leaders[p.leader].size
  }

  ghost predicate Matched(p: Pair, leaders: Leaders) {
    p.pos.open ==> PairOk(p) && Led(p, leaders) && SameSize(p, leaders) && OurShare(p) <= LeaderShare(p, leaders)
  }

  ghost predicate AllMatched(b: Book, leaders: Leaders) {
    forall i | 0 <= i < |b.pairs| :: Matched(b.pairs[i], leaders)
  }

  /** What a top-up of the whole gap would buy, when there is a price. */
  function TopUpFill(p: Pair, m: Market): Option<real> {
    match m.quote(p.pos.mint)
    case None => None
    case Some(q) => BuyQuantity(Gap(p, m.leaders), q.price, q.liquidity)
  }

  /** The position the pair comes to once its capital is its leader's. */
  function AtFullSize(p: Pair, m: Market): Position
    requires PairOk(p)
  {
    if Gap(p, m.leaders) > 0.0 && TopUpFill(p, m).Some? then Blended(p.pos, Gap(p, m.leaders), TopUpFill(p, m).value)
    else p.pos
  }

  predicate Live(h: Holding, m: Market) {
    m.mark(h).Some? && !m.mark(h).value.dead
  }

  /** The one fill the next visit of this pair needs, if it needs any: a price to buy at if it is short of capital,
      else a live mark to sell at if it holds more than the leader's share. */
  ghost predicate Served(p: Pair, m: Market)
    requires PairOk(p)
  {
    p.pos.open ==>
      && Led(p, m.leaders)
      && if Gap(p, m.leaders) > 0.0 then TopUpFill(p, m).Some?
         else OurShare(p) > LeaderShare(p, m.leaders) ==> Live(HoldingOf(p.pos), m)
  }

  function Min(x: real, y: real): real { if x <= y then x else y }

  // --- One pair ------------------------------------------------------------------------

  lemma {:induction false} SharesArePositive(p: Pair)
    requires PairOk(p)
    ensures OurShare(p) > 0.0
  {
  }

  /** With a live mark, matching exposure lands on the smaller of the two shares exactly when the leader still
      holds something; a leader at zero asks for a whole sale, which the trim refuses. */
  lemma {:induction false} ExposureIsMatchedExactlyWhenLeaderHolds(b: Book, i: nat, leader: LeaderPosition, m: Market)
    requires Sound(b) && i < |b.pairs| && b.pairs[i].pos.open
    requires leader.quantity > 0.0 && leader.remaining >= 0.0
    requires m.mark(HoldingOf(b.pairs[i].pos)).Some? && !m.mark(HoldingOf(b.pairs[i].pos)).value.dead
    ensures var s := MatchExposure(b, i, leader, m);
            var ours := OurShare(b.pairs[i]);
            var theirs := Share(leader.remaining, leader.quantity);
            && s.Done? && Sound(s.book) && |s.book.pairs| == |b.pairs|
            && s.book == WithPosition(b, i, s.book.pairs[i].pos, s.book.cash - b.cash)
            && s.book.cash >= b.cash
            && SameTrade(b.pairs[i].pos, s.book.pairs[i].pos) && s.book.pairs[i].pos.open
            && (OurShare(s.book.pairs[i]) <= theirs <==> leader.remaining > 0.0)
            && (leader.remaining > 0.0 ==> OurShare(s.book.pairs[i]) == Min(ours, theirs))
            && (theirs >= ours || leader.remaining == 0.0 ==> s.book == b)
  {
    var ours := OurShare(b.pairs[i]);
    var theirs := Share(leader.remaining, leader.quantity);
    SharesArePositive(b.pairs[i]);
    ShareIsZeroOnlyWhenSold(leader.remaining, leader.quantity);
    assert b == WithPosition(b, i, b.pairs[i].pos, 0.0);
    if theirs < ours && leader.remaining > 0.0 {
      TrimLandsOnTheLeader(b, i, leader, m);
    }
  }

  lemma {:induction false} ShareIsZeroOnlyWhenSold(remaining: real, quantity: real)
    requires quantity > 0.0 && remaining >= 0.0
    ensures Share(remaining, quantity) > 0.0 <==> remaining > 0.0
    ensures Share(remaining, quantity) >= 0.0
  {
  }

  lemma {:induction false} TrimLandsOnTheLeader(b: Book, i: nat, leader: LeaderPosition, m: Market)
    requires Sound(b) && i < |b.pairs| && b.pairs[i].pos.open
    requires leader.quantity > 0.0 && 0.0 < Share(leader.remaining, leader.quantity) < OurShare(b.pairs[i])
    requires m.mark(HoldingOf(b.pairs[i].pos)).Some? && !m.mark(HoldingOf(b.pairs[i].pos)).value.dead
    ensures var s := MatchExposure(b, i, leader, m);
            && s.Done? && Sound(s.book) && |s.book.pairs| == |b.pairs|
            && s.book == WithPosition(b, i, s.book.pairs[i].pos, s.book.cash - b.cash)
            && s.book.cash >= b.cash
            && SameTrade(b.pairs[i].pos, s.book.pairs[i].pos) && s.book.pairs[i].pos.open
            && OurShare(s.book.pairs[i]) == Share(leader.remaining, leader.quantity)
  {
    var p, theirs := b.pairs[i].pos, Share(leader.remaining, leader.quantity);
    ShareAfterTrim(p.remaining, p.quantity, ReleaseFraction(OurShare(b.pairs[i]), theirs));
  }

  lemma {:induction false} ShareAfterTrim(remaining: real, quantity: real, f: real)
    requires quantity > 0.0
    ensures Share(remaining - remaining * f, quantity) == Share(remaining, quantity) * (1.0 - f)
  {
  }

  lemma {:induction false} TopUpReachesTheLeader(b: Book, i: nat, m: Market)
    requires Sound(b) && i < |b.pairs| && b.pairs[i].pos.open && Led(b.pairs[i], m.leaders)
    requires 0.0 < Gap(b.pairs[i], m.leaders) <= b.cash && TopUpFill(b.pairs[i], m).Some?
    ensures var s := ReconcileOne(b, i, m);
            && s == Done(WithPosition(b, i, AtFullSize(b.pairs[i], m), -Gap(b.pairs[i], m.leaders)), Added)
            && Sound(s.book) && SameSize(s.book.pairs[i], m.leaders) && s.book.pairs[i].pos.open
  {
  }

  /** What one visit does to its pair, and that it touches nothing else. */
  lemma {:induction false} OneVisit(b: Book, i: nat, m: Market)
    requires Sound(b) && i < |b.pairs| && Served(b.pairs[i], m)
    requires Gap(b.pairs[i], m.leaders) <= b.cash
    ensures var s := ReconcileOne(b, i, m);
            && s.Done? && Sound(s.book) && |s.book.pairs| == |b.pairs|
            && (forall j | 0 <= j < |b.pairs| && j != i :: s.book.pairs[j] == b.pairs[j])
            && Led(s.book.pairs[i], m.leaders) && SameSize(s.book.pairs[i], m.leaders)
            && s.book.pairs[i].leader == b.pairs[i].leader && s.book.pairs[i].pos.open == b.pairs[i].pos.open
            && s.book.cash >= b.cash - Gap(b.pairs[i], m.leaders)
            && (SameSize(b.pairs[i], m.leaders) ==> Matched(s.book.pairs[i], m.leaders))
  {
    SoundReconcile(b, i, m);
    var p := b.pairs[i];
    if p.pos.open {
      if Gap(p, m.leaders) > 0.0 {
        TopUpReachesTheLeader(b, i, m);
      } else if OurShare(p) > LeaderShare(p, m.leaders) {
        ExposureIsMatchedExactlyWhenLeaderHolds(b, i, m.leaders[p.leader], m);
      }
    }
  }

  /** A pair without the fill its visit needs is left as it is. */
  lemma {:induction false} UnservedVisitDoesNothing(b: Book, i: nat, m: Market)
    requires Sound(b) && i < |b.pairs| && Led(b.pairs[i], m.leaders) && !Served(b.pairs[i], m)
    ensures ReconcileOne(b, i, m).Done? && ReconcileOne(b, i, m).book == b
  {
  }

  /** Whether two visits, each with its own prices, leave the pair matched: told from the pair before the first. */
  ghost predicate MatchedByTwo(p: Pair, m1: Market, m2: Market)
    requires PairOk(p) && Led(p, m1.leaders) && m1.leaders == m2.leaders
  {
    p.pos.open ==>
      var theirs := LeaderShare(p, m1.leaders);
      if Gap(p, m1.leaders) <= 0.0 then
        OurShare(p) > theirs ==> Live(HoldingOf(p.pos), m1) || Live(HoldingOf(p.pos), m2)
      else if TopUpFill(p, m1).Some? then
        (var q := AtFullSize(p, m1); Share(q.remaining, q.quantity) > theirs ==> Live(HoldingOf(q), m2))
      else
        TopUpFill(p, m2).Some? && (var q := AtFullSize(p, m2); Share(q.remaining, q.quantity) <= theirs)
  }

  /** For a pair whose gap is funded, two visits reach its leader exactly when the fills they need are there. */
  lemma {:induction false} TwoVisitsMatchExactlyWhenServed(b: Book, i: nat, m1: Market, m2: Market)
    requires Sound(b) && i < |b.pairs| && Led(b.pairs[i], m1.leaders) && m1.leaders == m2.leaders
    requires Gap(b.pairs[i], m1.leaders) <= b.cash
    ensures var r := Pass(b, [Visit(i, m1), Visit(i, m2)]);
            Matched(r.pairs[i], m1.leaders) <==> MatchedByTwo(b.pairs[i], m1, m2)
  {
    var c := ReconcileOne(b, i, m1).book;
    SoundReconcile(b, i, m1);
    PassOfTwo(b, i, m1, m2);
    VisitMatchesExactlyWhen(b, i, m1);
    if Served(b.pairs[i], m1) {
      OneVisit(b, i, m1);
      if Gap(b.pairs[i], m1.leaders) > 0.0 { TopUpReachesTheLeader(b, i, m1); }
    } else {
      UnservedVisitDoesNothing(b, i, m1);
    }
    VisitMatchesExactlyWhen(c, i, m2);
  }

  lemma {:induction false} PassOfTwo(b: Book, i: nat, m1: Market, m2: Market)
    requires Sound(b)
    ensures Sound(ReconcileOne(b, i, m1).book)
    ensures Pass(b, [Visit(i, m1), Visit(i, m2)]) == ReconcileOne(ReconcileOne(b, i, m1).book, i, m2).book
  {
    SoundReconcile(b, i, m1);
    var c, once := ReconcileOne(b, i, m1).book, [Visit(i, m2)];
    SoundReconcile(c, i, m2);
    assert [Visit(i, m1), Visit(i, m2)][1..] == once && once[1..] == [];
    assert Pass(ReconcileOne(c, i, m2).book, []) == ReconcileOne(c, i, m2).book;
    assert Pass(c, once) == ReconcileOne(c, i, m2).book;
  }

  /** One visit of a funded pair leaves it matched exactly when it needed no trim after its top-up, or got its trim. */
  lemma {:induction false} VisitMatchesExactlyWhen(b: Book, i: nat, m: Market)
    requires Sound(b) && i < |b.pairs| && Led(b.pairs[i], m.leaders) && Gap(b.pairs[i], m.leaders) <= b.cash
    ensures var p, q := b.pairs[i], AtFullSize(b.pairs[i], m);
            Matched(ReconcileOne(b, i, m).book.pairs[i], m.leaders) <==>
            (p.pos.open ==>
               && Served(p, m)
               && (Gap(p, m.leaders) > 0.0 ==> Share(q.remaining, q.quantity) <= LeaderShare(p, m.leaders)))
  {
    if Served(b.pairs[i], m) {
      OneVisit(b, i, m);
      if b.pairs[i].pos.open && Gap(b.pairs[i], m.leaders) > 0.0 { TopUpReachesTheLeader(b, i, m); }
    } else {
      UnservedVisitDoesNothing(b, i, m);
    }
  }

  // --- A whole pass ------------------------------------------------------------------------

  ghost predicate Visited(visits: seq<Visit>, i: nat) {
    exists k | 0 <= k < |visits| :: visits[k].pair == i
  }

  /** The loop visits rows of the book, each at most once, while the leaders stand at `leaders`, and finds at each
      row the fill that row needs. */
  ghost predicate Serves(b: Book, visits: seq<Visit>, leaders: Leaders)
    requires Sound(b)
  {
    && (forall j, k | 0 <= j < k < |visits| :: visits[j].pair != visits[k].pair)
    && forall k | 0 <= k < |visits| ::
         && visits[k].pair < |b.pairs| && visits[k].market.leaders == leaders
         && Served(b.pairs[visits[k].pair], visits[k].market)
  }

  ghost predicate CoversOpen(b: Book, visits: seq<Visit>) {
    forall i | 0 <= i < |b.pairs| && b.pairs[i].pos.open :: Visited(visits, i)
  }

  /** What the visits would cost if every gap among them were closed. */
  function Shortfall(b: Book, visits: seq<Visit>, leaders: Leaders): real {
    if visits == [] then 0.0
    else
      var i := visits[0].pair;
      (if i < |b.pairs| then Gap(b.pairs[i], leaders) else 0.0) + Shortfall(b, visits[1..], leaders)
  }

  lemma {:induction false} ShortfallIsLocal(b: Book, c: Book, visits: seq<Visit>, leaders: Leaders)
    requires |b.pairs| == |c.pairs|
    requires forall k | 0 <= k < |visits| && visits[k].pair < |b.pairs| ::
             b.pairs[visits[k].pair] == c.pairs[visits[k].pair]
    ensures Shortfall(b, visits, leaders) == Shortfall(c, visits, leaders)
  {
    if visits != [] {
      assert forall k | 0 <= k < |visits[1..]| :: visits[1..][k] == visits[k + 1];
      ShortfallIsLocal(b, c, visits[1..], leaders);
    }
  }

  lemma {:induction false} ShortfallIsNonNegative(b: Book, visits: seq<Visit>, leaders: Leaders)
    requires Sound(b) && Serves(b, visits, leaders)
    ensures Shortfall(b, visits, leaders) >= 0.0
  {
    if visits != [] {
      assert forall k | 0 <= k < |visits[1..]| :: visits[1..][k] == visits[k + 1];
      ShortfallIsNonNegative(b, visits[1..], leaders);
      assert Served(b.pairs[visits[0].pair], visits[0].market);
    }
  }

  lemma {:induction false} SameSizesNeedNoCash(b: Book, visits: seq<Visit>, leaders: Leaders)
    requires forall i | 0 <= i < |b.pairs| :: SameSize(b.pairs[i], leaders)
    ensures Shortfall(b, visits, leaders) == 0.0
  {
    if visits != [] { SameSizesNeedNoCash(b, visits[1..], leaders); }
  }

  /** After one funded pass every visited pair has its leader's size; a pair that already had it is matched. */
  lemma {:induction false} OnePass(b: Book, visits: seq<Visit>, leaders: Leaders)
    requires Sound(b) && Serves(b, visits, leaders) && Shortfall(b, visits, leaders) <= b.cash
    ensures var r := Pass(b, visits);
            && r.cash >= b.cash - Shortfall(b, visits, leaders)
            && forall i | 0 <= i < |b.pairs| ::
                 && r.pairs[i].leader == b.pairs[i].leader && r.pairs[i].pos.open == b.pairs[i].pos.open
                 && (!Visited(visits, i) ==> r.pairs[i] == b.pairs[i])
                 && (Visited(visits, i) ==> SameSize(r.pairs[i], leaders))
                 && (Visited(visits, i) && SameSize(b.pairs[i], leaders) ==> Matched(r.pairs[i], leaders))
    decreases |visits|
  {
    if visits != [] {
      var v, rest := visits[0], visits[1..];
      assert forall k | 0 <= k < |rest| :: rest[k] == visits[k + 1];
      forall i ensures Visited(visits, i) <==> i == v.pair || Visited(rest, i) { VisitedFirst(visits, i); }
      ShortfallIsNonNegative(b, rest, leaders);
      OneVisit(b, v.pair, v.market);
      var c := ReconcileOne(b, v.pair, v.market).book;
      ShortfallIsLocal(b, c, rest, leaders);
      OnePass(c, rest, leaders);
      assert !Visited(rest, v.pair);
    }
  }

  lemma {:induction false} VisitedFirst(visits: seq<Visit>, i: nat)
    requires visits != []
    ensures Visited(visits, i) <==> i == visits[0].pair || Visited(visits[1..], i)
  {
    assert forall k | 0 <= k < |visits[1..]| :: visits[1..][k] == visits[k + 1];
  }

  /** A matched book needs no cash, no price and no mark to stay as it is. */
  lemma {:induction false} MatchedPassDoesNothing(b: Book, visits: seq<Visit>, leaders: Leaders)
    requires Sound(b) && AllMatched(b, leaders)
    requires forall k | 0 <= k < |visits| :: visits[k].market.leaders == leaders
    ensures Pass(b, visits) == b
    decreases |visits|
  {
    if visits != [] {
      if visits[0].pair < |b.pairs| { assert Matched(b.pairs[visits[0].pair], leaders); }
      assert forall k | 0 <= k < |visits[1..]| :: visits[1..][k] == visits[k + 1];
      MatchedPassDoesNothing(b, visits[1..], leaders);
    }
  }

  // --- Settlements in between -----------------------------------------------------------------

  /** The pair as a settlement may leave it: closed, or holding exactly what it held for the same capital. */
  ghost predicate Kept(p: Pair, q: Pair) {
    && q.leader == p.leader
    && (q.pos.open ==> && p.pos.open && HoldingOf(q.pos) == HoldingOf(p.pos) && q.pos.quantity == p.pos.quantity)
  }

  ghost predicate AllKept(b: Book, c: Book) {
    |b.pairs| == |c.pairs| && forall i | 0 <= i < |b.pairs| :: Kept(b.pairs[i], c.pairs[i])
  }

  lemma {:induction false} OneSettlementKeeps(b: Book, i: nat, m: Market)
    requires Sound(b)
    ensures AllKept(b, SettlePair(b, i, m).book) && SettlePair(b, i, m).book.cash >= b.cash
  {
    if i < |b.pairs| {
      var p := b.pairs[i].pos;
      var mark, verdict := m.mark(HoldingOf(p)), ExitVerdict(p, m.now);
      assert PairOk(b.pairs[i]);
      if SettleOne(p, mark, verdict).Sold? { SettleMarks(p, mark, verdict); }
    }
  }

  lemma {:induction false} SettlementsKeep(b: Book, visits: seq<Visit>)
    requires Sound(b)
    ensures AllKept(b, SettlePass(b, visits)) && SettlePass(b, visits).cash >= b.cash
    decreases |visits|
  {
    if visits != [] {
      var c := SettlePair(b, visits[0].pair, visits[0].market).book;
      OneSettlementKeeps(b, visits[0].pair, visits[0].market);
      SettlementsKeep(c, visits[1..]);
      forall i | 0 <= i < |b.pairs| ensures Kept(b.pairs[i], SettlePass(c, visits[1..]).pairs[i]) {
        assert Kept(b.pairs[i], c.pairs[i]) && Kept(c.pairs[i], SettlePass(c, visits[1..]).pairs[i]);
      }
    }
  }

  lemma {:induction false} KeptStaysMatched(p: Pair, q: Pair, leaders: Leaders)
    requires PairOk(q) && Kept(p, q)
    ensures SameSize(p, leaders) ==> SameSize(q, leaders)
    ensures Matched(p, leaders) ==> Matched(q, leaders)
  {
  }

  // --- Whole ticks ----------------------------------------------------------------------------

  /** A tick that can pay for every gap it meets and finds every fill it needs. */
  ghost predicate Ready(b: Book, visits: seq<Visit>, leaders: Leaders) {
    && Sound(b) && b.cash >= 0.0
    && Serves(b, visits, leaders) && CoversOpen(b, visits) && Shortfall(b, visits, leaders) <= b.cash
  }

  /** A tick evens out every size, and matches every pair whose size was even before it. */
  lemma {:induction false} OneTick(b: Book, t: Quiet, leaders: Leaders)
    requires Ready(b, t.reconciling, leaders)
    ensures var c := Transact(b, QuietActions(t));
            && c.cash >= 0.0 && |c.pairs| == |b.pairs|
            && forall i | 0 <= i < |b.pairs| ::
                 && c.pairs[i].leader == b.pairs[i].leader && (c.pairs[i].pos.open ==> b.pairs[i].pos.open)
                 && SameSize(c.pairs[i], leaders)
                 && (SameSize(b.pairs[i], leaders) ==> Matched(c.pairs[i], leaders))
  {
    QuietTickIsTwoPasses(b, t);
    OnePass(b, t.reconciling, leaders);
    var r := Pass(b, t.reconciling);
    SettlementsKeep(r, t.settling);
    var c := SettlePass(r, t.settling);
    forall i | 0 <= i < |b.pairs|
      ensures c.pairs[i].leader == b.pairs[i].leader && (c.pairs[i].pos.open ==> b.pairs[i].pos.open)
      ensures SameSize(c.pairs[i], leaders) && (SameSize(b.pairs[i], leaders) ==> Matched(c.pairs[i], leaders))
    {
      assert Kept(r.pairs[i], c.pairs[i]) && PairOk(c.pairs[i]);
      KeptStaysMatched(r.pairs[i], c.pairs[i], leaders);
    }
  }

  /** A book two ticks away from its leaders, and those ticks. */
  ghost predicate Converging(b: Book, first: Quiet, second: Quiet, leaders: Leaders) {
    && Ready(b, first.reconciling, leaders)
    && (var c := Transact(b, QuietActions(first));
        Serves(c, second.reconciling, leaders) && CoversOpen(c, second.reconciling))
  }

  /** While the leaders stand still, two ticks match every open pair, each tick with its own clock, prices, marks and
      row order, and with a settlement at the end of each. */
  lemma {:induction false} TwoTicksConverge(b: Book, first: Quiet, second: Quiet, leaders: Leaders)
    requires Converging(b, first, second, leaders)
    ensures var d := Transact(Transact(b, QuietActions(first)), QuietActions(second));
            && AllMatched(d, leaders) && d.cash >= 0.0 && |d.pairs| == |b.pairs|
            && forall i | 0 <= i < |b.pairs| ::
                 d.pairs[i].leader == b.pairs[i].leader && (d.pairs[i].pos.open ==> b.pairs[i].pos.open)
  {
    OneTick(b, first, leaders);
    var c := Transact(b, QuietActions(first));
    SameSizesNeedNoCash(c, second.reconciling, leaders);
    OneTick(c, second, leaders);
  }

  function QuietTicks(ticks: seq<Quiet>): seq<seq<Action>> {
    seq(|ticks|, k requires 0 <= k < |ticks| => QuietActions(ticks[k]))
  }

  ghost predicate Standing(ticks: seq<Quiet>, leaders: Leaders) {
    forall j, k | 0 <= j < |ticks| && 0 <= k < |ticks[j].reconciling| ::
      ticks[j].reconciling[k].market.leaders == leaders
  }

  /** And every later tick, in whatever market, leaves it there: nothing is bought, nothing is sold but by an exit. */
  lemma {:induction false} MatchedForGood(d: Book, later: seq<Quiet>, leaders: Leaders)
    requires Sound(d) && AllMatched(d, leaders) && Standing(later, leaders)
    ensures var r := History(d, QuietTicks(later)); AllMatched(r, leaders) && AllKept(d, r)
    decreases |later|
  {
    if later != [] {
      var t, rest := later[0], later[1..];
      QuietTickIsTwoPasses(d, t);
      MatchedPassDoesNothing(d, t.reconciling, leaders);
      SettlementsKeep(d, t.settling);
      var e := Transact(d, QuietActions(t));
      forall i | 0 <= i < |e.pairs| ensures Matched(e.pairs[i], leaders) {
        assert Kept(d.pairs[i], e.pairs[i]) && Matched(d.pairs[i], leaders) && PairOk(e.pairs[i]);
        KeptStaysMatched(d.pairs[i], e.pairs[i], leaders);
      }
      assert forall j | 0 <= j < |rest| :: rest[j] == later[j + 1];
      assert QuietTicks(later)[1..] == QuietTicks(rest);
      MatchedForGood(e, rest, leaders);
      var r := History(e, QuietTicks(rest));
      forall i | 0 <= i < |d.pairs| ensures Kept(d.pairs[i], r.pairs[i]) {
        assert Kept(d.pairs[i], e.pairs[i]) && Kept(e.pairs[i], r.pairs[i]);
      }
    }
  }

  /** Two arms with different pasts, that then see different markets, end with the same capital against the same
      leader position. */
  lemma {:induction false} MissedTicksDoNotMatter(b: Book, b1: Quiet, b2: Quiet, c: Book, c1: Quiet, c2: Quiet,
                                                  leaders: Leaders, i: nat, j: nat)
    requires Converging(b, b1, b2, leaders) && Converging(c, c1, c2, leaders)
    requires i < |b.pairs| && j < |c.pairs| && b.pairs[i].leader == c.pairs[j].leader
    ensures var p := Transact(Transact(b, QuietActions(b1)), QuietActions(b2)).pairs;
            var q := Transact(Transact(c, QuietActions(c1)), QuietActions(c2)).pairs;
            && |p| == |b.pairs| && |q| == |c.pairs|
            && (p[i].pos.open && q[j].pos.open ==>
                  b.pairs[i].leader in leaders && p[i].pos.size == q[j].pos.size == leaders[b.pairs[i].leader].size)
  {
    TwoTicksConverge(b, b1, b2, leaders);
    TwoTicksConverge(c, c1, c2, leaders);
    assert Matched(Transact(Transact(b, QuietActions(b1)), QuietActions(b2)).pairs[i], leaders);
    assert Matched(Transact(Transact(c, QuietActions(c1)), QuietActions(c2)).pairs[j], leaders);
  }
}
