/** The lab engine every book runs on: the fill model, marks, sales, and the reported equity.
    Decimal figures are reals; the market data a call reads is passed in. */
module Lab {
  import opened Wrappers

  // --- The execution model ---------------------------------------------------

  const FEE: real := 0.003
  const IMPACT_DIVISOR: real := 12.0
  const FILL_DRIFT_CAP: real := 1.15

  function Depth(liquidity: real): real {
    liquidity / 2.0 / IMPACT_DIVISOR
  }

  /** What `amount` is worth once it has moved a pool of the given depth. */
  function AfterImpact(amount: real, depth: real): (r: real)
    requires amount > 0.0 && depth > 0.0
    ensures 0.0 < r < amount
    ensures r < depth
  {
    ImpactBounds(amount, depth);
    amount / (1.0 + amount / depth)
  }

  lemma {:induction false} ImpactBounds(amount: real, depth: real)
    requires amount > 0.0 && depth > 0.0
    ensures amount / depth > 0.0
    ensures 0.0 < amount / (1.0 + amount / depth) < amount
    ensures amount / (1.0 + amount / depth) < depth
  {
  }

  function BuyQuantity(size: real, price: real, liquidity: real): (q: Option<real>)
    ensures q.Some? <==> size > 0.0 && price > 0.0 && liquidity > 0.0
    ensures q.Some? ==> q.value > 0.0
    ensures q.Some? ==> q.value * price < size * (1.0 - FEE)
  {
    if size <= 0.0 || price <= 0.0 || liquidity <= 0.0 then None
    else
      var spend := size * (1.0 - FEE);
      var slip := 1.0 + spend / Depth(liquidity);
      ImpactBounds(spend, Depth(liquidity));
      assert price * slip > price by { assert price * (slip - 1.0) > 0.0; }
      var q := spend / (price * slip);
      assert q * (price * slip) == spend;
      assert q > 0.0;
      assert q * price < spend by {
        assert (q * price) * slip == spend;
        assert (q * price) * (slip - 1.0) > 0.0;
      }
      Some(q)
  }

  function SellProceeds(quantity: real, price: real, liquidity: real): (r: real)
    ensures r >= 0.0
    ensures quantity > 0.0 && price > 0.0 && liquidity > 0.0 ==> 0.0 < r < quantity * price
  {
    if quantity <= 0.0 || price <= 0.0 || liquidity <= 0.0 then 0.0
    else
      assert quantity * price > 0.0;
      AfterImpact(quantity * price, Depth(liquidity)) * (1.0 - FEE)
  }

  /** A fill satisfies its own equation: what is left of the stake after the 0.3% fee pays for the units at a price
      that the stake itself has moved, by the stake over a twenty-fourth of the pool. */
  lemma {:induction false} BuyPaysForItsImpact(size: real, price: real, liquidity: real)
    requires size > 0.0 && price > 0.0 && liquidity > 0.0
    ensures BuyQuantity(size, price, liquidity).Some?
    ensures var q, spend := BuyQuantity(size, price, liquidity).value, size * 0.997;
            q * (price * (1.0 + spend / (liquidity / 24.0))) == spend
  {
    var spend := size * 0.997;
    assert Depth(liquidity) == liquidity / 24.0;
    DividesBack(spend, price, 1.0 + spend / (liquidity / 24.0));
  }

  lemma {:induction false} DividesBack(spend: real, price: real, slip: real)
    requires price > 0.0 && slip > 0.0
    ensures price * slip > 0.0 && spend / (price * slip) * (price * slip) == spend
  {
    var paid := price * slip;
    assert paid > 0.0;
  }

  /** And so does a sale: its value, cut by its own impact and then by the fee. */
  lemma {:induction false} SaleIsCutByItsImpact(quantity: real, price: real, liquidity: real)
    requires quantity > 0.0 && price > 0.0 && liquidity > 0.0
    ensures var worth, r := quantity * price, SellProceeds(quantity, price, liquidity);
            worth > 0.0 && r * (1.0 + worth / (liquidity / 24.0)) == worth * 0.997
  {
    var worth := quantity * price;
    assert worth > 0.0 && Depth(liquidity) == liquidity / 24.0;
    var slip := 1.0 + worth / (liquidity / 24.0);
    var net := worth / slip;
    assert net * slip == worth;
    assert SellProceeds(quantity, price, liquidity) == net * 0.997;
    assert (net * 0.997) * slip == (net * slip) * 0.997;
  }

  /** Buying and selling back at one print always loses, by both fees at least. */
  lemma {:induction false} RoundTripLoses(size: real, price: real, liquidity: real)
    requires size > 0.0 && price > 0.0 && liquidity > 0.0
    ensures SellProceeds(BuyQuantity(size, price, liquidity).value, price, liquidity) < size * 0.997 * 0.997
  {
    var q := BuyQuantity(size, price, liquidity).value;
    SaleLosesTheFee(q, price, liquidity);
    TwoFees(SellProceeds(q, price, liquidity), q * price, size);
  }

  lemma {:induction false} SaleLosesTheFee(quantity: real, price: real, liquidity: real)
    requires quantity > 0.0 && price > 0.0 && liquidity > 0.0
    ensures SellProceeds(quantity, price, liquidity) < quantity * price * 0.997
  {
    var worth := quantity * price;
    assert worth > 0.0;
    assert SellProceeds(quantity, price, liquidity) == AfterImpact(worth, Depth(liquidity)) * 0.997;
  }

  lemma {:induction false} TwoFees(got: real, worth: real, size: real)
    requires got < worth * 0.997 && worth < size * 0.997
    ensures got < size * 0.997 * 0.997
  {
  }

  /** Nothing is bought or sold at no price, into no pool, or of no amount. */
  lemma {:induction false} NothingForNothing(amount: real, price: real, liquidity: real)
    ensures BuyQuantity(amount, price, liquidity).None? <==> amount <= 0.0 || price <= 0.0 || liquidity <= 0.0
    ensures SellProceeds(amount, price, liquidity) == 0.0 <==> amount <= 0.0 || price <= 0.0 || liquidity <= 0.0
  {
  }

  lemma {:induction false} MoreFetchesMore(less: real, more: real, price: real, liquidity: real)
    requires 0.0 < less < more && price > 0.0 && liquidity > 0.0
    ensures SellProceeds(less, price, liquidity) < SellProceeds(more, price, liquidity)
  {
    assert less * price < more * price;
    ImpactGrows(less * price, more * price, Depth(liquidity));
  }

  lemma {:induction false} ImpactGrows(less: real, more: real, depth: real)
    requires 0.0 < less < more && depth > 0.0
    ensures AfterImpact(less, depth) < AfterImpact(more, depth)
  {
    var a, b := AfterImpact(less, depth), AfterImpact(more, depth);
    assert a * (depth + less) == less * depth && b * (depth + more) == more * depth;
    var gap, whole, room := b - a, depth + less, (more - less) * (depth - b);
    assert gap * whole == room;
    assert room > 0.0;
    PositiveFactor(gap, whole);
  }

  lemma {:induction false} PositiveFactor(x: real, y: real)
    requires y > 0.0 && x * y > 0.0
    ensures x > 0.0
  {
  }

  /** The price a triggered exit is filled at: the current one, capped at a set drift above the trigger. */
  function CappedFillPrice(price: real, entryPrice: real, trigger: Option<real>): real {
    if trigger.None? then price
    else
      var cap := entryPrice * trigger.value * FILL_DRIFT_CAP;
      if price <= cap then price else cap
  }

  // --- Positions ---------------------------------------------------------------

  /** One virtual position. `banked` is what partial sales have already paid into the wallet. */
  datatype Position = Position(
    mint: string,
    openedAt: int,
    entryPrice: real,
    size: real,
    quantity: real,
    remaining: real,
    banked: real,
    lastValue: Option<real>,
    open: bool,
    exitProceeds: Option<real>)

  ghost predicate WellFormed(p: Position) {
    && p.size > 0.0 && p.quantity > 0.0
    && 0.0 < p.remaining <= p.quantity
    && p.banked >= 0.0
    && (p.open <==> p.exitProceeds.None?)
    && (p.exitProceeds.Some? ==> p.exitProceeds.value >= p.banked)
  }

  function Slice(whole: real, fraction: real): (part: real)
    requires 0.0 < fraction < 1.0
    ensures whole > 0.0 ==> part < whole && 0.0 < part
  {
    SliceBounds(whole, fraction);
    whole * fraction
  }

  lemma {:induction false} SliceBounds(whole: real, fraction: real)
    requires 0.0 < fraction < 1.0
    ensures whole > 0.0 ==> whole * fraction < whole
  {
  }

  /** Everything this position has ever paid back into the wallet. */
  function Credited(p: Position): real {
    if p.exitProceeds.Some? then p.exitProceeds.value else p.banked
  }

  /** The columns a mark is computed from. */
  datatype Holding = Holding(mint: string, size: real, remaining: real, entryPrice: real)

  function HoldingOf(p: Position): Holding {
    Holding(p.mint, p.size, p.remaining, p.entryPrice)
  }

  /** A tradeable print; `dead` when the pool has been confirmed gone. */
  datatype Mark = Mark(price: real, liquidity: real, dead: bool)

  function ExecutableValue(p: Position, mark: Mark): (v: real)
    ensures v >= 0.0
  {
    if mark.dead then 0.0 else SellProceeds(p.remaining, mark.price, mark.liquidity)
  }

  // --- Sales -------------------------------------------------------------------

  datatype Sale = Refused(reason: string) | Sold(position: Position, credit: real)

  function Closed(p: Position, credit: real): Position {
    p.(open := false, exitProceeds := Some(p.banked + credit), lastValue := Some(0.0))
  }

  function CloseManually(p: Position, mark: Option<Mark>): (s: Sale)
    ensures s.Sold? <==> p.open && mark.Some?
    ensures s.Sold? && WellFormed(p) ==> SaleKeepsTheBooks(p, s) && !s.position.open
  {
    if !p.open then Refused("already_closed")
    else if mark.None? then Refused("unmarkable")
    else
      var credit := ExecutableValue(p, mark.value);
      Sold(Closed(p, credit), credit)
  }

  /** The position after `sellQty` of it has been sold for `got`. */
  function AfterPartSale(p: Position, sellQty: real, got: real): (q: Position)
    ensures WellFormed(p) && p.open && 0.0 < sellQty < p.remaining && got >= 0.0 ==> SaleKeepsTheBooks(p, Sold(q, got))
  {
    p.(banked := p.banked + got, remaining := p.remaining - sellQty)
  }

  function TrimManually(p: Position, fraction: real, mark: Option<Mark>): (s: Sale)
    ensures s.Sold? ==> p.open && 0.0 < fraction < 1.0
    ensures s.Sold? && WellFormed(p) ==> SaleKeepsTheBooks(p, s) && s.position.open
  {
    if fraction <= 0.0 || fraction >= 1.0 then Refused("fraction_out_of_range")
    else if !p.open then Refused("already_closed")
    else if mark.None? then Refused("unmarkable")
    else if mark.value.dead then Refused("dead")
    else
      var sellQty := Slice(p.remaining, fraction);
      if sellQty <= 0.0 then Refused("nothing_left")
      else
        var got := SellProceeds(sellQty, mark.value.price, mark.value.liquidity);
        Sold(AfterPartSale(p, sellQty, got), got)
  }

  /** A trim sells the asked fraction of what is left and pays what selling that slice alone fetches. */
  lemma {:induction false} TrimSellsItsSlice(p: Position, fraction: real, mark: Mark)
    requires WellFormed(p) && p.open && 0.0 < fraction < 1.0 && !mark.dead
    ensures var paid := SellProceeds(p.remaining * fraction, mark.price, mark.liquidity);
            TrimManually(p, fraction, Some(mark)) ==
            Sold(p.(banked := p.banked + paid, remaining := p.remaining - p.remaining * fraction), paid)
  {
    var slice := Slice(p.remaining, fraction);
    assert slice == p.remaining * fraction;
  }

  /** Which is less than closing the position at the same mark would. */
  lemma {:induction false} TrimPaysForItsSlice(p: Position, fraction: real, mark: Mark)
    requires WellFormed(p) && p.open && 0.0 < fraction < 1.0 && !mark.dead
    ensures var s := TrimManually(p, fraction, Some(mark));
            && s.Sold? && CloseManually(p, Some(mark)).Sold?
            && s.credit == SellProceeds(p.remaining * fraction, mark.price, mark.liquidity)
            && (mark.price > 0.0 && mark.liquidity > 0.0 ==> s.credit < CloseManually(p, Some(mark)).credit)
  {
    TrimSellsItsSlice(p, fraction, mark);
    if mark.price > 0.0 && mark.liquidity > 0.0 {
      MoreFetchesMore(Slice(p.remaining, fraction), p.remaining, mark.price, mark.liquidity);
    }
  }

  /** When a trim sells nothing, in the order the reasons are tried; a refusal never changes anything. */
  lemma {:induction false} TrimRefuses(p: Position, fraction: real, mark: Option<Mark>)
    requires WellFormed(p)
    ensures TrimManually(p, fraction, mark) ==
            if fraction <= 0.0 || 1.0 <= fraction then Refused("fraction_out_of_range")
            else if !p.open then Refused("already_closed")
            else if mark.None? then Refused("unmarkable")
            else if mark.value.dead then Refused("dead")
            else
              var paid := SellProceeds(p.remaining * fraction, mark.value.price, mark.value.liquidity);
              Sold(p.(banked := p.banked + paid, remaining := p.remaining - p.remaining * fraction), paid)
  {
    if 0.0 < fraction < 1.0 && p.open && mark.Some? && !mark.value.dead {
      TrimSellsItsSlice(p, fraction, mark.value);
    }
  }

  /** A close pays what the whole remainder fetches, and nothing for a dead pool. */
  lemma {:induction false} ClosePaysForTheRest(p: Position, mark: Mark)
    requires p.open
    ensures var paid := if mark.dead then 0.0 else SellProceeds(p.remaining, mark.price, mark.liquidity);
            CloseManually(p, Some(mark)) ==
            Sold(p.(open := false, exitProceeds := Some(p.banked + paid), lastValue := Some(0.0)), paid)
  {
  }

  /** A sale moves no stake, credits the wallet exactly what the position records, and never pays less than nothing. */
  ghost predicate SaleKeepsTheBooks(p: Position, s: Sale)
    requires s.Sold?
  {
    && WellFormed(s.position)
    && s.credit >= 0.0
    && Credited(s.position) == Credited(p) + s.credit
    && SameTrade(p, s.position)
  }

  /** The facts about a position no sale may change. */
  ghost predicate SameTrade(p: Position, q: Position) {
    q.mint == p.mint && q.openedAt == p.openedAt && q.size == p.size && q.quantity == p.quantity
  }

  type Fraction = x: real | 0.0 < x < 1.0 witness 0.5

  /** Which frozen exit fires on a mark that is not dead. */
  datatype Verdict = Hold | Partial(fraction: Fraction, trigger: Option<real>) | Close(trigger: Option<real>)

  /** One position's turn in `settle`: mark it, then let its exit rule act. */
  function SettleOne(p: Position, mark: Option<Mark>, verdict: Verdict): (s: Sale)
    ensures s.Sold? <==> p.open && mark.Some?
    ensures s.Sold? && WellFormed(p) ==> SaleKeepsTheBooks(p, s)
  {
    if !p.open then Refused("already_closed")
    else if mark.None? then Refused("stale")
    else
      var m := mark.value;
      var marked := p.(lastValue := Some(p.banked + ExecutableValue(p, m)));
      if m.dead then Sold(Closed(marked, 0.0), 0.0)
      else match verdict
        case Hold => Sold(marked, 0.0)
        case Partial(fraction, trigger) =>
          var sellQty := Slice(p.remaining, fraction);
          var got := SellProceeds(sellQty, CappedFillPrice(m.price, p.entryPrice, trigger), m.liquidity);
          Sold(AfterPartSale(marked, sellQty, got), got)
        case Close(trigger) =>
          var got := SellProceeds(p.remaining, CappedFillPrice(m.price, p.entryPrice, trigger), m.liquidity);
          Sold(Closed(marked, got), got)
  }

  /** Where a level exit fills: at the print, but not above the trigger's level and 15% of drift. */
  lemma {:induction false} FillIsCapped(price: real, entryPrice: real, trigger: real)
    ensures CappedFillPrice(price, entryPrice, None) == price
    ensures var cap := entryPrice * trigger * 1.15;
            CappedFillPrice(price, entryPrice, Some(trigger)) == if price <= cap then price else cap
  {
  }

  /** A settlement that holds stores the position's worth; one that finds the pool dead closes it for nothing. */
  lemma {:induction false} SettlementHolds(p: Position, mark: Mark, verdict: Verdict)
    requires p.open && (mark.dead || verdict.Hold?)
    ensures SettleOne(p, Some(mark), verdict) ==
            if mark.dead then Sold(p.(open := false, exitProceeds := Some(p.banked), lastValue := Some(0.0)), 0.0)
            else Sold(p.(lastValue := Some(p.banked + SellProceeds(p.remaining, mark.price, mark.liquidity))), 0.0)
  {
  }

  /** A partial exit sells its fraction, after the worth of the whole was stored. */
  lemma {:induction false} SettlementTakesPart(p: Position, mark: Mark, f: Fraction, trigger: Option<real>)
    requires p.open && !mark.dead
    ensures var paid := SellProceeds(p.remaining * f, CappedFillPrice(mark.price, p.entryPrice, trigger),
            mark.liquidity);
            var stored := p.banked + SellProceeds(p.remaining, mark.price, mark.liquidity);
            SettleOne(p, Some(mark), Partial(f, trigger)) ==
            Sold(p.(lastValue := Some(stored), banked := p.banked + paid, remaining := p.remaining - p.remaining * f),
              paid)
  {
  }

  /** A full exit sells everything and records all the position ever paid. */
  lemma {:induction false} SettlementCloses(p: Position, mark: Mark, trigger: Option<real>)
    requires p.open && !mark.dead
    ensures var paid := SellProceeds(p.remaining, CappedFillPrice(mark.price, p.entryPrice, trigger), mark.liquidity);
            SettleOne(p, Some(mark), Close(trigger)) ==
            Sold(p.(open := false, exitProceeds := Some(p.banked + paid), lastValue := Some(0.0)), paid)
  {
  }

  /** Without a partial sale, settling either closes a position or leaves its stored value at this very mark. */
  lemma {:induction false} SettleMarks(p: Position, mark: Option<Mark>, verdict: Verdict)
    requires !verdict.Partial? && SettleOne(p, mark, verdict).Sold?
    ensures var q := SettleOne(p, mark, verdict).position;
            && q.banked == p.banked
            && (q.open ==> HoldingOf(q) == HoldingOf(p))
            && (q.open ==> q.lastValue == Some(q.banked + ExecutableValue(q, mark.value)))
  {
  }

  // --- The reported equity -------------------------------------------------------

  function ReportedValue(p: Position): real {
    if !p.open then 0.0 else if p.lastValue.Some? then p.lastValue.value else p.size
  }

  function OpenValue(ps: seq<Position>): real {
    if ps == [] then 0.0 else ReportedValue(ps[0]) + OpenValue(ps[1..])
  }

  function Staked(ps: seq<Position>): real {
    if ps == [] then 0.0 else ps[0].size + Staked(ps[1..])
  }

  function TotalCredited(ps: seq<Position>): real {
    if ps == [] then 0.0 else Credited(ps[0]) + TotalCredited(ps[1..])
  }

  lemma {:induction false} SumsAfterUpdate(ps: seq<Position>, i: nat, q: Position)
    requires i < |ps|
    ensures OpenValue(ps[i := q]) == OpenValue(ps) - ReportedValue(ps[i]) + ReportedValue(q)
    ensures Staked(ps[i := q]) == Staked(ps) - ps[i].size + q.size
    ensures TotalCredited(ps[i := q]) == TotalCredited(ps) - Credited(ps[i]) + Credited(q)
  {
    if i == 0 {
      assert ps[0 := q][1..] == ps[1..];
    } else {
      assert ps[i := q][1..] == ps[1..][i - 1 := q];
      SumsAfterUpdate(ps[1..], i - 1, q);
    }
  }

  lemma {:induction false} SumsAfterAppend(ps: seq<Position>, q: Position)
    ensures OpenValue(ps + [q]) == OpenValue(ps) + ReportedValue(q)
    ensures Staked(ps + [q]) == Staked(ps) + q.size
    ensures TotalCredited(ps + [q]) == TotalCredited(ps) + Credited(q)
  {
    if ps == [] {
      assert ps + [q] == [q];
    } else {
      assert (ps + [q])[1..] == ps[1..] + [q];
      SumsAfterAppend(ps[1..], q);
    }
  }

  // --- What the reported equity is worth -----------------------------------------

  /** An open position whose stored value is the one `settle` computes from this mark. */
  ghost predicate MarkedAt(p: Position, mark: Holding -> Option<Mark>) {
    p.open ==>
      && mark(HoldingOf(p)).Some?
      && p.lastValue == Some(p.banked + ExecutableValue(p, mark(HoldingOf(p)).value))
  }

  function ExecutableOpenValue(ps: seq<Position>, mark: Holding -> Option<Mark>): real {
    if ps == [] then 0.0
    else
      var m := mark(HoldingOf(ps[0]));
      (if ps[0].open && m.Some? then ExecutableValue(ps[0], m.value) else 0.0) + ExecutableOpenValue(ps[1..], mark)
  }

  function BankedWhileOpen(ps: seq<Position>): real {
    if ps == [] then 0.0 else (if ps[0].open then ps[0].banked else 0.0) + BankedWhileOpen(ps[1..])
  }

  /** The reported open value counts again what partial sales of open positions already paid into cash. */
  lemma {:induction false} ReportedIsExecutablePlusBanked(ps: seq<Position>, mark: Holding -> Option<Mark>)
    requires forall i | 0 <= i < |ps| :: MarkedAt(ps[i], mark)
    ensures OpenValue(ps) == ExecutableOpenValue(ps, mark) + BankedWhileOpen(ps)
  {
    if ps != [] {
      assert MarkedAt(ps[0], mark);
      forall i | 0 <= i < |ps[1..]| ensures MarkedAt(ps[1..][i], mark) { assert ps[1..][i] == ps[i + 1]; }
      ReportedIsExecutablePlusBanked(ps[1..], mark);
    }
  }

  lemma {:induction false} BankedWhileOpenIsZero(ps: seq<Position>)
    requires forall i | 0 <= i < |ps| :: ps[i].banked >= 0.0
    ensures BankedWhileOpen(ps) >= 0.0
    ensures BankedWhileOpen(ps) == 0.0 <==> forall i | 0 <= i < |ps| :: ps[i].open ==> ps[i].banked == 0.0
  {
    if ps != [] {
      forall i | 0 <= i < |ps[1..]| ensures ps[1..][i].banked >= 0.0 { assert ps[1..][i] == ps[i + 1]; }
      BankedWhileOpenIsZero(ps[1..]);
      assert (forall i | 0 <= i < |ps| :: ps[i].open ==> ps[i].banked == 0.0) <==>
             (ps[0].open ==> ps[0].banked == 0.0) &&
             forall i | 0 <= i < |ps[1..]| :: ps[1..][i].open ==> ps[1..][i].banked == 0.0
      by {
        assert forall i | 0 < i < |ps| :: ps[i] == ps[1..][i - 1];
      }
    }
  }
}
