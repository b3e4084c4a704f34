/** The frozen-position audit: replay each archived open position over the observations stored since its
    watermark, and report the first rule it would have broken. */
module FrozenAudit {
  import opened Wrappers

  datatype Observation = Observation(at: int, price: real)

  datatype Frozen = Frozen(entry: real, target: Option<real>, stop: Option<real>, trailing: Option<real>,
                           expiresAt: Option<int>)

  datatype Rule = Target | Stop | Trail | Expiry

  datatype Classification = Unresolved | LegitimatelyOpen | Recoverable(rule: Rule, at: int, price: real)

  function Max(x: real, y: real): real { if x >= y then x else y }

  /** The highest of the entry and the first n prices. */
  function PeakAfter(entry: real, series: seq<Observation>, n: nat): real
    requires n <= |series|
  {
    if n == 0 then entry else Max(PeakAfter(entry, series, n - 1), series[n - 1].price)
  }

  predicate TargetHit(p: Frozen, o: Observation) { p.target.Some? && o.price >= p.target.value }
  predicate StopHit(p: Frozen, o: Observation) { p.stop.Some? && o.price <= p.stop.value }
  predicate TrailHit(p: Frozen, o: Observation, peak: real) {
    p.trailing.Some? && peak > 0.0 && o.price <= peak * (1.0 - p.trailing.value)
  }
  predicate Expired(p: Frozen, o: Observation) { p.expiresAt.Some? && o.at >= p.expiresAt.value }

  /** The rule observation k breaks, in the order the rules are asked. */
  function Breach(p: Frozen, series: seq<Observation>, k: nat): Option<Rule>
    requires k < |series|
  {
    var o := series[k];
    if TargetHit(p, o) then Some(Target)
    else if StopHit(p, o) then Some(Stop)
    else if TrailHit(p, o, PeakAfter(p.entry, series, k + 1)) then Some(Trail)
    else if Expired(p, o) then Some(Expiry)
    else None
  }

  ghost predicate BreachesFirst(p: Frozen, series: seq<Observation>, k: nat) {
    k < |series| && Breach(p, series, k).Some? && forall j | 0 <= j < k :: Breach(p, series, j).None?
  }

  /** What the replay must answer. */
  ghost predicate Answers(p: Frozen, series: seq<Observation>, c: Classification) {
    match c
    case Unresolved => series == []
    case LegitimatelyOpen => series != [] && forall k | 0 <= k < |series| :: Breach(p, series, k).None?
    case Recoverable(rule, at, price) =>
      exists k: nat :: BreachesFirst(p, series, k) && Breach(p, series, k) == Some(rule)
        && series[k] == Observation(at, price)
  }

  /** The loop of the script, its for-else branch included. */
  method Replay(p: Frozen, series: seq<Observation>) returns (c: Classification)
    ensures Answers(p, series, c)
  {
    c := Unresolved;
    if series != [] {
      var peak := p.entry;
      c := LegitimatelyOpen;
      var last := series[|series| - 1];
      for k := 0 to |series|
        invariant c == LegitimatelyOpen && peak == PeakAfter(p.entry, series, k)
        invariant forall j | 0 <= j < k :: Breach(p, series, j).None?
      {
        var o := series[k];
        peak := Max(peak, o.price);
        if TargetHit(p, o) {
          assert BreachesFirst(p, series, k);
          return Recoverable(Target, o.at, o.price);
        }
        if StopHit(p, o) {
          assert BreachesFirst(p, series, k);
          return Recoverable(Stop, o.at, o.price);
        }
        if TrailHit(p, o, peak) {
          assert BreachesFirst(p, series, k);
          return Recoverable(Trail, o.at, o.price);
        }
        if Expired(p, o) {
          assert BreachesFirst(p, series, k);
          return Recoverable(Expiry, o.at, o.price);
        }
      }
      if Expired(p, last) {
        c := Recoverable(Expiry, last.at, last.price);
      }
    }
  }

  /** The peak is the greatest of the entry and the prices so far: above them all, and one of them. */
  lemma {:induction false} PeakIsTheGreatest(entry: real, series: seq<Observation>, n: nat)
    requires n <= |series|
    ensures var peak := PeakAfter(entry, series, n);
            && entry <= peak && (forall i | 0 <= i < n :: series[i].price <= peak)
            && (peak == entry || exists i | 0 <= i < n :: series[i].price == peak)
  {
    if n > 0 { PeakIsTheGreatest(entry, series, n - 1); }
  }

  /** At an observation with this peak behind it, the rule broken: the first, in this order, whose level is met. */
  ghost predicate Breaks(p: Frozen, o: Observation, peak: real, rule: Rule) {
    var target := p.target.Some? && p.target.value <= o.price;
    var stop := p.stop.Some? && o.price <= p.stop.value;
    var trail := p.trailing.Some? && peak > 0.0 && o.price <= peak - peak * p.trailing.value;
    var expiry := p.expiresAt.Some? && p.expiresAt.value <= o.at;
    match rule
    case Target => target
    case Stop => stop && !target
    case Trail => trail && !target && !stop
    case Expiry => expiry && !target && !stop && !trail
  }

  /** Observation `k` breaks this rule. */
  ghost predicate BreaksAt(p: Frozen, series: seq<Observation>, k: nat, rule: Rule) {
    k < |series| && Breaks(p, series[k], PeakAfter(p.entry, series, k + 1), rule)
  }

  lemma {:induction false} BreachIsTheFirstRule(p: Frozen, series: seq<Observation>, k: nat, rule: Rule)
    requires k < |series|
    ensures Breach(p, series, k) == Some(rule) <==> BreaksAt(p, series, k, rule)
  {
    var peak := PeakAfter(p.entry, series, k + 1);
    if p.trailing.Some? {
      assert peak * (1.0 - p.trailing.value) == peak - peak * p.trailing.value;
    }
  }

  /** What a recovered exit says: at its observation that rule was the first broken, on the greatest price up to and
      including it, and no earlier observation broke any. */
  lemma {:induction false} RecoveredExitIsTheFirstBreach(p: Frozen, series: seq<Observation>, rule: Rule, at: int,
                                                         price: real)
    requires Answers(p, series, Recoverable(rule, at, price))
    ensures exists k | 0 <= k < |series| ::
              && series[k] == Observation(at, price)
              && BreaksAt(p, series, k, rule)
              && forall j, r | 0 <= j < k :: !BreaksAt(p, series, j, r)
  {
    var k: nat :| BreachesFirst(p, series, k) && Breach(p, series, k) == Some(rule)
      && series[k] == Observation(at, price);
    BreachIsTheFirstRule(p, series, k, rule);
    forall j: nat, r | j < k ensures !BreaksAt(p, series, j, r) {
      BreachIsTheFirstRule(p, series, j, r);
    }
  }

  /** The answer is the only one there is. */
  lemma {:induction false} AnswerIsUnique(p: Frozen, series: seq<Observation>, c: Classification, d: Classification)
    requires Answers(p, series, c) && Answers(p, series, d)
    ensures c == d
  {
  }

  /** The branch after the loop can never fire: a series that expires at its end has expired in the loop. */
  lemma {:induction false} ElseBranchIsDead(p: Frozen, series: seq<Observation>)
    requires series != [] && forall k | 0 <= k < |series| :: Breach(p, series, k).None?
    ensures !Expired(p, series[|series| - 1])
  {
    assert Breach(p, series, |series| - 1).None?;
  }

  lemma {:induction false} PeakIgnoresTheFuture(entry: real, series: seq<Observation>, more: seq<Observation>, n: nat)
    requires n <= |series|
    ensures PeakAfter(entry, series + more, n) == PeakAfter(entry, series, n)
  {
    if n > 0 { PeakIgnoresTheFuture(entry, series, more, n - 1); }
  }

  lemma {:induction false} BreachIgnoresTheFuture(p: Frozen, series: seq<Observation>, more: seq<Observation>, k: nat)
    requires k < |series|
    ensures Breach(p, series + more, k) == Breach(p, series, k)
  {
    assert (series + more)[k] == series[k];
    PeakIgnoresTheFuture(p.entry, series, more, k + 1);
  }

  /** A recovered exit is final: no observation stored later can change it. */
  lemma {:induction false} LaterObservationsChangeNothing(p: Frozen, series: seq<Observation>, more: seq<Observation>,
                                                          c: Classification)
    requires c.Recoverable? && Answers(p, series, c)
    ensures Answers(p, series + more, c)
  {
    var k: nat :| BreachesFirst(p, series, k) && Breach(p, series, k) == Some(c.rule)
      && series[k] == Observation(c.at, c.price);
    forall j: nat | j <= k ensures Breach(p, series + more, j) == Breach(p, series, j) {
      BreachIgnoresTheFuture(p, series, more, j);
    }
    assert BreachesFirst(p, series + more, k) && (series + more)[k] == series[k];
  }

  /** A position is still open exactly when no prefix of its series would have closed it. */
  lemma {:induction false} OpenExactlyWhenNoPrefixBreaches(p: Frozen, series: seq<Observation>)
    requires series != []
    ensures Answers(p, series, LegitimatelyOpen) <==>
            forall n | 0 < n <= |series| :: Answers(p, series[..n], LegitimatelyOpen)
  {
    if Answers(p, series, LegitimatelyOpen) {
      forall n | 0 < n <= |series| ensures Answers(p, series[..n], LegitimatelyOpen) {
        assert series == series[..n] + series[n..];
        forall k | 0 <= k < n ensures Breach(p, series[..n], k).None? {
          BreachIgnoresTheFuture(p, series[..n], series[n..], k);
        }
      }
    }
    assert series[..|series|] == series;
  }
}
