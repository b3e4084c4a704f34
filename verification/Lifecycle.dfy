/** The mission state of a project: rules tried in order, the first that applies decides. */
module Lifecycle {
  import opened Wrappers
  import opened Detector

  const MIN_OBSERVATIONS: nat := 12
  const LAUNCH_WINDOW_DAYS: real := 1.0
  const NEAR_PEAK: real := 0.9
  const DEEP_DRAWDOWN: real := 0.5
  const FLAT_BAND: real := 0.97

  datatype Sighting = Sighting(
    current: Option<real>,
    peak: Option<real>,
    days: real,
    exitSeverity: Option<string>,
    veto: bool,
    observations: nat)

  /** The share of its peak the project still holds. */
  function Held(current: real, peak: Option<real>): real {
    var top := if peak.Some? then peak.value else current;
    if top > 0.0 then current / top else 1.0
  }

  predicate Condemned(s: Sighting) {
    s.veto || s.exitSeverity == Some("elevated")
  }

  function Classify(s: Sighting): MissionState {
    if s.observations < MIN_OBSERVATIONS || s.current.None? then Recon
    else if Condemned(s) then LostContact
    else
      var current := s.current.value;
      var held := Held(current, s.peak);
      if held < DEEP_DRAWDOWN then LostContact
      else if s.days < LAUNCH_WINDOW_DAYS then LaunchWindow
      else if current >= 1.0 then if held >= NEAR_PEAK then Ascent else Orbit
      else if current >= FLAT_BAND then HoldingPattern
      else ReEntry
  }

  /** Below half, or below nine tenths, of a positive peak. */
  predicate Under(s: Sighting, tenths: real)
    requires s.current.Some?
  {
    var top := if s.peak.Some? then s.peak.value else s.current.value;
    top > 0.0 && s.current.value * 10.0 < tenths * top
  }

  lemma {:induction false} HeldIsTheShare(s: Sighting, tenths: real)
    requires s.current.Some? && tenths <= 10.0
    ensures Under(s, tenths) <==> Held(s.current.value, s.peak) * 10.0 < tenths
  {
    var top, x := if s.peak.Some? then s.peak.value else s.current.value, s.current.value;
    if top > 0.0 {
      var share := x / top;
      assert share * top == x;
      assert share * 10.0 < tenths ==> (share * 10.0) * top < tenths * top;
      assert share * 10.0 >= tenths ==> (share * 10.0) * top >= tenths * top;
    }
  }

  /** Which state a project is in, each told from the observations alone. */
  lemma {:induction false} StateSays(s: Sighting)
    ensures var m := Classify(s);
            var seen := s.observations >= 12 && s.current.Some?;
            && (m == Recon <==> !seen)
            && (m == LostContact <==> seen && (s.veto || s.exitSeverity == Some("elevated") || Under(s, 5.0)))
            && (seen && m != LostContact ==>
                  && (m == LaunchWindow <==> s.days < 1.0)
                  && (s.days >= 1.0 ==>
                        && (m == Ascent <==> s.current.value >= 1.0 && !Under(s, 9.0))
                        && (m == Orbit <==> s.current.value >= 1.0 && Under(s, 9.0))
                        && (m == HoldingPattern <==> 0.97 <= s.current.value < 1.0)
                        && (m == ReEntry <==> s.current.value < 0.97)))
  {
    if s.current.Some? {
      HeldIsTheShare(s, 5.0);
      HeldIsTheShare(s, 9.0);
    }
  }

  /** The later sighting's peak is the running maximum: the old peak or the new figure, whichever is higher. */
  predicate PeakKept(before: Sighting, after: Sighting) {
    before.current.Some? && after.current.Some? &&
    match before.peak
    case Some(p) => after.peak == Some(if p < after.current.value then after.current.value else p)
    case None => after.peak == None || after.peak == after.current
  }

  /** Same project, watched at least as long, risen or level, judged on enough observations both times. */
  predicate Risen(before: Sighting, after: Sighting) {
    && PeakKept(before, after)
    && before.current.value <= after.current.value
    && before.days <= after.days
    && before.exitSeverity == after.exitSeverity && before.veto == after.veto
    && MIN_OBSERVATIONS <= before.observations && MIN_OBSERVATIONS <= after.observations
  }

  lemma {:induction false} WholeOfItself(x: real)
    requires x > 0.0
    ensures x / x == 1.0
  {
  }

  lemma {:induction false} SharesGrow(x: real, y: real, top: real)
    requires x <= y && top > 0.0
    ensures x / top <= y / top
  {
  }

  /** With its peak kept as a running maximum, a rise holds at least as much of the peak, or the whole of it. */
  lemma {:induction false} RiseGivesNothingBack(before: Sighting, after: Sighting)
    requires Risen(before, after)
    ensures var b, a := Held(before.current.value, before.peak), Held(after.current.value, after.peak);
            a == 1.0 || b <= a <= 1.0
  {
    var x, y := before.current.value, after.current.value;
    if y > 0.0 { WholeOfItself(y); }
    if before.peak.Some? && before.peak.value > 0.0 {
      var top := before.peak.value;
      SharesGrow(x, y, top);
      WholeOfItself(top);
      if y <= top { SharesGrow(y, top, top); }
    }
  }

  /**
   * Whether a rise can lower the mission. Only by the launch window running out
   * while the project is still under its detection price; never otherwise.
   */
  lemma {:induction false} RiseIsADowngradeExactlyWhen(before: Sighting, after: Sighting)
    requires Risen(before, after)
    ensures MissionRank(Classify(after)) < MissionRank(Classify(before))
            <==> (&& !Condemned(before) && Held(before.current.value, before.peak) >= DEEP_DRAWDOWN
                  && before.days < LAUNCH_WINDOW_DAYS <= after.days && after.current.value < 1.0)
  {
    RiseGivesNothingBack(before, after);
  }

  /** So, on the same side of the launch window, the log never shows a rise as a downgrade. */
  lemma {:induction false} RiseIsNeverLoggedAsADowngrade(before: Sighting, after: Sighting, previous: TokenState,
                                                         current: TokenState)
    requires Risen(before, after)
    requires before.days < LAUNCH_WINDOW_DAYS <==> after.days < LAUNCH_WINDOW_DAYS
    requires previous.mission == Some(Classify(before)) && current.mission == Some(Classify(after))
    requires previous.mint == current.mint
    ensures forall e <- Detect(Some(previous), current) :: e.kind != MissionDowngraded
  {
    RiseIsADowngradeExactlyWhen(before, after);
    var mission := Mission(previous, current);
    assert forall e <- mission :: e.kind == MissionPromoted by {
      assert MissionRank(Classify(before)) == MissionRank(Classify(after)) ==> Classify(before) == Classify(after);
    }
    NoDowngrade(mission, OtherChanges(previous, current), current.mint);
  }

  lemma {:induction false} NoDowngrade(mission: seq<Event>, others: seq<Event>, mint: string)
    requires (forall e <- mission :: e.kind == MissionPromoted) && Plain(others, mint)
    ensures forall e <- mission + others :: e.kind != MissionDowngraded
  {
  }
}
