/** CPY-02, the control arm: a book that answers each of another book's positions with one of its own,
    in a token drawn at random, and then keeps its size and exposure in step by reconciling state. */
module CopyControl {
  import opened Wrappers
  import opened Lab

  const STARTING_EQUITY: real := 100.0
  const FALLBACK_SIZE_USD: real := 10.0
  const MAX_CONCURRENT: nat := 10
  const TIME_EXIT_SECONDS: int := 168 * 3600

  /** A control position together with the leader position its decision row names. */
  datatype Pair = Pair(leader: nat, leaderMint: string, pos: Position)

  datatype Book = Book(cash: real, pairs: seq<Pair>)

  datatype LeaderPosition = LeaderPosition(size: real, quantity: real, remaining: real)

  /** An acted leader trade. `positionId` is the leader position it opened, changed or closed. */
  datatype Signal = Signal(signature: string, side: string, outcome: string, positionId: Option<nat>, mint: string)

  datatype Candidate = Candidate(mint: string, price: real, liquidity: real)
  datatype Quote = Quote(price: real, liquidity: real)

  /** Everything outside the book that one step reads. `draw` is the generator seeded by a signature. */
  datatype Market = Market(
    now: int,
    leaders: map<nat, LeaderPosition>,
    pool: seq<Candidate>,
    draw: (string, nat) -> nat,
    quote: string -> Option<Quote>,
    mark: Holding -> Option<Mark>)

  datatype Outcome =
    | Opened | AlreadyMirrored | LeaderPositionMissing | InsufficientCash | MaxConcurrent | NoCandidates | Unpriceable
    | ClosedPair | NoPairRecorded | NoPairedPosition | NotMirrorable
    | AlreadyMatched | Added | Trimmed | Untouched
    | Declined(reason: string)

  /** A step either completes or violates a unique constraint, which aborts the whole transaction. */
  datatype Step = Done(book: Book, outcome: Outcome) | Raised

  // --- Pairing -----------------------------------------------------------------

  predicate AnyPaired(pairs: seq<Pair>, leader: nat) {
    exists i | 0 <= i < |pairs| :: pairs[i].leader == leader
  }

  predicate EverHeld(pairs: seq<Pair>, mint: string) {
    exists i | 0 <= i < |pairs| :: pairs[i].pos.mint == mint
  }

  predicate Answers(p: Pair, leader: nat) {
    p.pos.open && p.leader == leader
  }

  /** The first open pair answering `leader`, searching from index `from`. */
  function PairedPosition(pairs: seq<Pair>, leader: nat, from: nat := 0): (r: Option<nat>)
    requires from <= |pairs|
    ensures r.Some? ==> from <= r.value < |pairs| && Answers(pairs[r.value], leader)
    ensures r.None? ==> forall i | from <= i < |pairs| :: !Answers(pairs[i], leader)
    decreases |pairs| - from
  {
    if from == |pairs| then None
    else if Answers(pairs[from], leader) then Some(from)
    else PairedPosition(pairs, leader, from + 1)
  }

  function OpenCount(pairs: seq<Pair>): nat {
    if pairs == [] then 0 else (if pairs[0].pos.open then 1 else 0) + OpenCount(pairs[1..])
  }

  function HeldMints(pairs: seq<Pair>): set<string> {
    set i | 0 <= i < |pairs| && pairs[i].pos.open :: pairs[i].pos.mint
  }

  // --- Choosing ------------------------------------------------------------------

  function Eligible(pool: seq<Candidate>, exclude: set<string>): (r: seq<Candidate>)
    ensures forall c :: c in r <==> c in pool && c.mint !in exclude
  {
    if pool == [] then []
    else (if pool[0].mint in exclude then [] else [pool[0]]) + Eligible(pool[1..], exclude)
  }

  function Pick(candidates: seq<Candidate>, signature: string, draw: (string, nat) -> nat): (c: Candidate)
    requires candidates != []
    ensures c in candidates
  {
    candidates[draw(signature, |candidates|) % |candidates|]
  }

  // --- Acting --------------------------------------------------------------------

  /** A leader position with no size is mirrored at the fallback. */
  function OpeningSize(leader: LeaderPosition): real {
    if leader.size == 0.0 then FALLBACK_SIZE_USD else leader.size
  }

  function NewPair(sig: Signal, c: Candidate, size: real, quantity: real, now: int): Pair
    requires sig.positionId.Some?
  {
    Pair(sig.positionId.value, sig.mint,
         Position(c.mint, now, c.price, size, quantity, quantity, 0.0, Some(size), true, None))
  }

  function Open(b: Book, sig: Signal, m: Market): Step {
    if sig.positionId.Some? && AnyPaired(b.pairs, sig.positionId.value) then Done(b, AlreadyMirrored)
    else if sig.positionId.None? || sig.positionId.value !in m.leaders then Done(b, LeaderPositionMissing)
    else
      var size := OpeningSize(m.leaders[sig.positionId.value]);
      var candidates := Eligible(m.pool, HeldMints(b.pairs) + {sig.mint});
      if b.cash < size then Done(b, InsufficientCash)
      else if OpenCount(b.pairs) >= MAX_CONCURRENT then Done(b, MaxConcurrent)
      else if candidates == [] then Done(b, NoCandidates)
      else
        var c := Pick(candidates, sig.signature, m.draw);
        var qty := BuyQuantity(size, c.price, c.liquidity);
        if qty.None? then Done(b, Unpriceable)
        else if EverHeld(b.pairs, c.mint) then Raised
        else Done(Book(b.cash - size, b.pairs + [NewPair(sig, c, size, qty.value, m.now)]), Opened)
  }

  function WithPosition(b: Book, i: nat, p: Position, cashChange: real): Book
    requires i < |b.pairs|
  {
    Book(b.cash + cashChange, b.pairs[i := b.pairs[i].(pos := p)])
  }

  function ClosePair(b: Book, sig: Signal, m: Market): Step {
    if sig.positionId.None? then Done(b, NoPairRecorded)
    else
      var mine := PairedPosition(b.pairs, sig.positionId.value);
      if mine.None? then Done(b, NoPairedPosition)
      else
        var p := b.pairs[mine.value].pos;
        match CloseManually(p, m.mark(HoldingOf(p)))
        case Refused(reason) => Done(b, Declined(reason))
        case Sold(q, credit) => Done(WithPosition(b, mine.value, q, credit), ClosedPair)
  }

  function Mirror(b: Book, sig: Signal, m: Market): Step {
    if sig.outcome == "opened" && sig.side == "buy" then Open(b, sig, m)
    else if sig.outcome == "closed" && sig.side == "sell" then ClosePair(b, sig, m)
    else Done(b, NotMirrorable)
  }

  /** The blended position after buying `qty` more for `increment`. */
  function Blended(p: Position, increment: real, qty: real): Position
    requires p.quantity + qty != 0.0
  {
    p.(size := p.size + increment, quantity := p.quantity + qty, remaining := p.remaining + qty,
       entryPrice := (p.size + increment) / (p.quantity + qty), lastValue := Some(p.size + increment))
  }

  function TopUp(b: Book, i: nat, leader: LeaderPosition, m: Market): Step
    requires i < |b.pairs| && WellFormed(b.pairs[i].pos)
  {
    var p := b.pairs[i].pos;
    var increment := leader.size - p.size;
    if increment <= 0.0 then Done(b, AlreadyMatched)
    else if b.cash < increment then Done(b, InsufficientCash)
    else
      var quote := m.quote(p.mint);
      if quote.None? then Done(b, Unpriceable)
      else
        var qty := BuyQuantity(increment, quote.value.price, quote.value.liquidity);
        if qty.None? then Done(b, Unpriceable)
        else Done(WithPosition(b, i, Blended(p, increment, qty.value), -increment), Added)
  }

  function Share(remaining: real, quantity: real): real
    requires quantity != 0.0
  {
    remaining / quantity
  }

  /** The fraction of what we still hold that must go for us to hold the leader's share. */
  function ReleaseFraction(ours: real, theirs: real): (f: real)
    requires ours > 0.0 && theirs < ours
    ensures 0.0 < f <= 1.0
    ensures f < 1.0 <==> theirs > 0.0
    ensures theirs >= 0.0 ==> ours * (1.0 - f) == theirs
  {
    FractionOfRemainder(ours, theirs);
    var fraction := (ours - theirs) / ours;
    if fraction <= 1.0 then fraction else 1.0
  }

  lemma {:induction false} FractionOfRemainder(ours: real, theirs: real)
    requires ours > 0.0 && theirs < ours
    ensures var f := (ours - theirs) / ours; 0.0 < f && ours * (1.0 - f) == theirs
    ensures var f := (ours - theirs) / ours; (f < 1.0 <==> theirs > 0.0) && (f <= 1.0 <==> theirs >= 0.0)
  {
    var f := (ours - theirs) / ours;
    assert f * ours == ours - theirs;
    var kept := 1.0 - f;
    assert ours * kept == theirs;
    if kept > 0.0 { assert ours * kept > 0.0; }
    if kept < 0.0 { assert ours * kept < 0.0; }
  }

  function MatchExposure(b: Book, i: nat, leader: LeaderPosition, m: Market): Step
    requires i < |b.pairs| && WellFormed(b.pairs[i].pos)
  {
    var p := b.pairs[i].pos;
    if leader.quantity == 0.0 then Done(b, Untouched)
    else
      var theirs := Share(leader.remaining, leader.quantity);
      var ours := Share(p.remaining, p.quantity);
      if theirs >= ours then Done(b, Untouched)
      else
        match TrimManually(p, ReleaseFraction(ours, theirs), m.mark(HoldingOf(p)))
        case Refused(reason) => Done(b, Declined(reason))
        case Sold(q, credit) => Done(WithPosition(b, i, q, credit), Trimmed)
  }

  function ReconcileOne(b: Book, i: nat, m: Market): Step
    requires Sound(b)
  {
    if i >= |b.pairs| || !b.pairs[i].pos.open || b.pairs[i].leader !in m.leaders then Done(b, Untouched)
    else
      var leader := m.leaders[b.pairs[i].leader];
      if leader.size > b.pairs[i].pos.size then TopUp(b, i, leader, m) else MatchExposure(b, i, leader, m)
  }

  /** This registry's frozen exits: a dead pool settles at zero, and a clock runs out after a week. */
  function ExitVerdict(p: Position, now: int): Verdict {
    if now - p.openedAt >= TIME_EXIT_SECONDS then Close(None) else Hold
  }

  function SettlePair(b: Book, i: nat, m: Market): Step {
    if i >= |b.pairs| then Done(b, Untouched)
    else
      var p := b.pairs[i].pos;
      match SettleOne(p, m.mark(HoldingOf(p)), ExitVerdict(p, m.now))
      case Refused(reason) => Done(b, Declined(reason))
      case Sold(q, credit) => Done(WithPosition(b, i, q, credit), Untouched)
  }

  // --- Runs ------------------------------------------------------------------------

  /** One atomic step of a tick, with the market as that step saw it. */
  datatype Action =
    | Mirroring(sig: Signal, market: Market)
    | Reconciling(pair: nat, market: Market)
    | Settling(pair: nat, market: Market)

  ghost predicate PairOk(p: Pair) {
    WellFormed(p.pos) && p.pos.mint != p.leaderMint
  }

  ghost predicate Sound(b: Book) {
    forall i | 0 <= i < |b.pairs| :: PairOk(b.pairs[i])
  }

  function Act(b: Book, a: Action): (s: Step)
    requires Sound(b)
    ensures s.Done? ==> Sound(s.book)
  {
    match a
    case Mirroring(sig, m) => SoundMirror(b, sig, m); Mirror(b, sig, m)
    case Reconciling(i, m) => SoundReconcile(b, i, m); ReconcileOne(b, i, m)
    case Settling(i, m) => SettlePair(b, i, m)
  }

  lemma {:induction false} SoundMirror(b: Book, sig: Signal, m: Market)
    requires Sound(b)
    ensures Mirror(b, sig, m).Done? ==> Sound(Mirror(b, sig, m).book)
  {
  }

  lemma {:induction false} SoundReconcile(b: Book, i: nat, m: Market)
    requires Sound(b)
    ensures ReconcileOne(b, i, m).Done? && Sound(ReconcileOne(b, i, m).book)
  {
  }

  function Run(b: Book, acts: seq<Action>): (s: Step)
    requires Sound(b)
    ensures s.Done? ==> Sound(s.book)
    decreases |acts|
  {
    if acts == [] then Done(b, Untouched)
    else
      match Act(b, acts[0])
      case Raised => Raised
      case Done(b1, _) => Run(b1, acts[1..])
  }

  /** A tick is one transaction: all of it lands, or none of it. */
  function Transact(b: Book, acts: seq<Action>): (r: Book)
    requires Sound(b)
    ensures Sound(r)
  {
    match Run(b, acts)
    case Raised => b
    case Done(b1, _) => b1
  }

  function History(b: Book, ticks: seq<seq<Action>>): (r: Book)
    requires Sound(b)
    ensures Sound(r)
    decreases |ticks|
  {
    if ticks == [] then b else History(Transact(b, ticks[0]), ticks[1..])
  }
}
