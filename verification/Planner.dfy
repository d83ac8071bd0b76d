/**
  The live request budget: what to reserve for scores, detail, odds and
  one-shot calls until UTC midnight, and how fast detail may then refresh.

  `PlanFor` is the pure planner over three demand figures. `PlanLiveBudget`
  runs the sweep line and is proved to hand `PlanFor` the true demand.
 */
module Planner {
  import opened Prelude
  import opened SweepLine

  const FAST := 5 * 60                 // LIVE_DETAIL_REFRESH_SECONDS
  const IDLE_SCORE_POLL := 5 * 60
  const DETAIL_CALLS := 40
  const FINAL_CALLS := 8
  const ONESHOT_CALLS := 12
  const REDUCED_ONESHOT_CALLS := 4
  const MAX_CALLS_PER_TICK := DETAIL_CALLS + FINAL_CALLS + ONESHOT_CALLS
  const URGENT_SHARE := 0.25

  datatype LiveBudgetPlan = LiveBudgetPlan(
    scoreNeed: int,
    detailNeed: int,
    oddsNeed: int,
    detailRefresh: int,
    relaxedRefresh: int,
    oneshotCalls: int,
    scorePoll: real,
    pollOdds: bool,
    oddsRefresh: int,
    overloaded: bool,
    safetyBuffer: int,
    oneshotReserve: int,
    maxContextCalls: int,
    contextCallsPerTick: real,
    allowedPerMinute: real)
  {
    function FullReserve(): int { scoreNeed + detailNeed + oddsNeed }

    /** Calls this plan intends to spend above the safety buffer. */
    function ReservedCalls(): int { FullReserve() + oneshotReserve }
  }

  function SafetyBuffer(limitDay: int, bufferPercent: real): int {
    if limitDay <= 0 || bufferPercent <= 0.0 then 0
    else Ceil(limitDay as real * (bufferPercent / 100.0))
  }

  /** The buffer is the least whole number of calls that is not below its percentage of the day's limit. */
  lemma BufferIsThePercentage(limitDay: int, bufferPercent: real)
    requires limitDay > 0 && bufferPercent > 0.0
    ensures var buffer := SafetyBuffer(limitDay, bufferPercent) as real;
      (buffer - 1.0) * 100.0 < limitDay as real * bufferPercent <= buffer * 100.0
  {
    var l := limitDay as real;
    assert l * (bufferPercent / 100.0) * 100.0 == l * bufferPercent;
  }

  // ----------------------------------------------------------- detail cadence

  function CallsOnly(matchSeconds: real, interval: int): int {
    if matchSeconds <= 0.0 || interval <= 0 then 0
    else Ceil(matchSeconds / interval as real)
  }

  function Ceiling(secondsLeft: real): int { Max(FAST, Ceil(secondsLeft)) }

  /** `interval` seconds between detail polls keep `matchSeconds` within the budget. */
  predicate Fits(matchSeconds: real, interval: int, callBudget: int) {
    CallsOnly(matchSeconds, interval) <= callBudget
  }

  /** The interval the search below ends on. */
  function StretchedInterval(matchSeconds: real, callBudget: int, secondsLeft: real): int {
    if matchSeconds <= 0.0 || callBudget <= 0 then Ceiling(secondsLeft)
    else Min(Ceiling(secondsLeft), Max(FAST, Ceil(matchSeconds / callBudget as real)))
  }

  lemma FitsIffLongEnough(matchSeconds: real, callBudget: int, interval: int)
    requires matchSeconds > 0.0 && callBudget > 0 && interval > 0
    ensures Fits(matchSeconds, interval, callBudget) <==> Ceil(matchSeconds / callBudget as real) <= interval
  {
    var b, i := callBudget as real, interval as real;
    CrossDivide(matchSeconds, b, i);
    assert Ceil(matchSeconds / i) <= callBudget <==> matchSeconds / i <= b;
    assert Ceil(matchSeconds / b) <= interval <==> matchSeconds / b <= i;
  }

  lemma CrossDivide(x: real, a: real, b: real)
    requires a > 0.0 && b > 0.0
    ensures x / b <= a <==> x / a <= b
  {
    assert x / b <= a <==> x <= a * b;
    assert x / a <= b <==> x <= a * b;
  }

  /** Widening the interval second by second stops at the least one that fits, or at the ceiling. */
  method IntervalOnly(matchSeconds: real, callBudget: int, secondsLeft: real) returns (interval: int)
    ensures interval == StretchedInterval(matchSeconds, callBudget, secondsLeft)
    ensures FAST <= interval <= Ceiling(secondsLeft)
    ensures matchSeconds > 0.0 && callBudget > 0 ==>
      && (forall k :: FAST <= k < interval ==> !Fits(matchSeconds, k, callBudget))
      && (interval < Ceiling(secondsLeft) ==> Fits(matchSeconds, interval, callBudget))
  {
    var ceiling := Ceiling(secondsLeft);
    if matchSeconds <= 0.0 || callBudget <= 0 {
      return ceiling;
    }
    var start := Max(FAST, Ceil(matchSeconds / callBudget as real));
    forall k | FAST <= k < start
      ensures !Fits(matchSeconds, k, callBudget)
    {
      FitsIffLongEnough(matchSeconds, callBudget, k);
    }
    interval := start;
    while CallsOnly(matchSeconds, interval) > callBudget && interval < ceiling
      invariant start <= interval
      invariant forall k :: FAST <= k < interval ==> !Fits(matchSeconds, k, callBudget)
      decreases ceiling - interval
    {
      interval := interval + 1;
    }
    FitsIffLongEnough(matchSeconds, callBudget, start);
    interval := Min(interval, ceiling);
  }

  datatype Tiers = Tiers(urgent: int, relaxed: int, calls: int)

  /** Keep halftime-sized detail faster and stretch the rest of the match. */
  function TieredIntervals(matchSeconds: real, finishing: int, callBudget: int, secondsLeft: real): Tiers {
    var ceiling := Ceiling(secondsLeft);
    if callBudget <= 0 then Tiers(ceiling, ceiling, 0) else
    var finish := Min(Max(0, finishing), callBudget);
    var body := callBudget - finish;
    if matchSeconds <= 0.0 || body <= 0 then Tiers(FAST, FAST, finish) else
    var urgentSeconds := matchSeconds * URGENT_SHARE;
    var relaxedSeconds := matchSeconds - urgentSeconds;
    var urgentFast := CallsOnly(urgentSeconds, FAST);
    if urgentFast <= body then
      var relaxedBody := body - urgentFast;
      var relaxed := StretchedInterval(relaxedSeconds, relaxedBody, secondsLeft);
      var relaxedCalls := Min(relaxedBody, CallsOnly(relaxedSeconds, relaxed));
      Tiers(FAST, Max(FAST, relaxed), urgentFast + relaxedCalls + finish)
    else
      var urgentBody := Max(1, body / 2);
      var relaxedBody := Max(0, body - urgentBody);
      var urgent := StretchedInterval(urgentSeconds, urgentBody, secondsLeft);
      var relaxed := Max(urgent, StretchedInterval(relaxedSeconds, Max(1, relaxedBody), secondsLeft));
      var urgentCalls := Min(urgentBody, CallsOnly(urgentSeconds, urgent));
      var relaxedCalls := Min(relaxedBody, CallsOnly(relaxedSeconds, relaxed));
      Tiers(urgent, relaxed, urgentCalls + relaxedCalls + finish)
  }

  /** Detail calls the two intervals really cause, closing fetches included. */
  function ImpliedCalls(t: Tiers, matchSeconds: real, finish: int): int {
    CallsOnly(matchSeconds * URGENT_SHARE, t.urgent)
    + CallsOnly(matchSeconds - matchSeconds * URGENT_SHARE, t.relaxed)
    + finish
  }

  lemma TiersAreOrderedAndAffordable(matchSeconds: real, finishing: int, callBudget: int, secondsLeft: real)
    ensures var t := TieredIntervals(matchSeconds, finishing, callBudget, secondsLeft);
      && FAST <= t.urgent <= t.relaxed <= Ceiling(secondsLeft)
      && 0 <= t.calls <= Max(0, callBudget)
  {
    if matchSeconds > 0.0 {
      CallsNonNegative(matchSeconds * URGENT_SHARE, FAST);
      var t := TieredIntervals(matchSeconds, finishing, callBudget, secondsLeft);
      CallsNonNegative(matchSeconds * URGENT_SHARE, t.urgent);
      CallsNonNegative(matchSeconds - matchSeconds * URGENT_SHARE, t.relaxed);
    }
  }

  lemma CallsNonNegative(matchSeconds: real, interval: int)
    ensures CallsOnly(matchSeconds, interval) >= 0
    ensures matchSeconds > 0.0 && interval > 0 ==> CallsOnly(matchSeconds, interval) >= 1
  {
    if matchSeconds > 0.0 && interval > 0 {
      assert matchSeconds / interval as real > 0.0;
    }
  }

  lemma WiderStillFits(matchSeconds: real, callBudget: int, narrow: int, wide: int)
    requires 0 < narrow <= wide && Fits(matchSeconds, narrow, callBudget) && matchSeconds > 0.0 && callBudget > 0
    ensures Fits(matchSeconds, wide, callBudget)
  {
    FitsIffLongEnough(matchSeconds, callBudget, narrow);
    FitsIffLongEnough(matchSeconds, callBudget, wide);
  }

  /** Below its ceiling the closed form fits the budget it was given. */
  lemma StretchedFits(matchSeconds: real, callBudget: int, secondsLeft: real)
    requires matchSeconds > 0.0 && callBudget > 0
    requires StretchedInterval(matchSeconds, callBudget, secondsLeft) < Ceiling(secondsLeft)
    ensures Fits(matchSeconds, StretchedInterval(matchSeconds, callBudget, secondsLeft), callBudget)
  {
    FitsIffLongEnough(matchSeconds, callBudget, StretchedInterval(matchSeconds, callBudget, secondsLeft));
  }

  /**
    Stretched detail is realisable exactly when at least two calls are left for
    match bodies. With one, both tiers are still promised a call of their own;
    with none, detail stays at full speed with nothing to pay for it.
   */
  lemma RealisableIffTwoBodyCalls(matchSeconds: real, finishing: int, callBudget: int, secondsLeft: real)
    requires matchSeconds > 0.0 && callBudget > 0
    requires var t := TieredIntervals(matchSeconds, finishing, callBudget, secondsLeft);
      t.urgent < Ceiling(secondsLeft) && t.relaxed < Ceiling(secondsLeft)
    ensures var t := TieredIntervals(matchSeconds, finishing, callBudget, secondsLeft);
      var finish := Min(Max(0, finishing), callBudget);
      ImpliedCalls(t, matchSeconds, finish) <= callBudget <==> callBudget - finish >= 2
  {
    var t := TieredIntervals(matchSeconds, finishing, callBudget, secondsLeft);
    var body := callBudget - Min(Max(0, finishing), callBudget);
    var urgentSeconds := matchSeconds * URGENT_SHARE;
    var relaxedSeconds := matchSeconds - urgentSeconds;
    CallsNonNegative(urgentSeconds, t.urgent);
    CallsNonNegative(relaxedSeconds, t.relaxed);
    if body >= 2 {
      var urgentFast := CallsOnly(urgentSeconds, FAST);
      if urgentFast <= body {
        StretchedFits(relaxedSeconds, body - urgentFast, secondsLeft);
      } else {
        var urgentBody := body / 2;
        StretchedFits(urgentSeconds, urgentBody, secondsLeft);
        StretchedFits(relaxedSeconds, body - urgentBody, secondsLeft);
        WiderStillFits(relaxedSeconds, body - urgentBody,
                       StretchedInterval(relaxedSeconds, body - urgentBody, secondsLeft), t.relaxed);
      }
    }
  }

  /** The calls a plan claims for detail are the calls its intervals imply, as far as the budget goes. */
  lemma ClaimsWhatItImplies(matchSeconds: real, finishing: int, callBudget: int, secondsLeft: real)
    requires matchSeconds > 0.0 && callBudget > 0
    requires var t := TieredIntervals(matchSeconds, finishing, callBudget, secondsLeft);
      t.urgent < Ceiling(secondsLeft) && t.relaxed < Ceiling(secondsLeft)
    ensures var t := TieredIntervals(matchSeconds, finishing, callBudget, secondsLeft);
      t.calls == Min(callBudget, ImpliedCalls(t, matchSeconds, Min(Max(0, finishing), callBudget)))
  {
    var t := TieredIntervals(matchSeconds, finishing, callBudget, secondsLeft);
    var body := callBudget - Min(Max(0, finishing), callBudget);
    var urgentSeconds := matchSeconds * URGENT_SHARE;
    var relaxedSeconds := matchSeconds - urgentSeconds;
    RealisableIffTwoBodyCalls(matchSeconds, finishing, callBudget, secondsLeft);
    CallsNonNegative(urgentSeconds, t.urgent);
    CallsNonNegative(relaxedSeconds, t.relaxed);
    var urgentFast := CallsOnly(urgentSeconds, FAST);
    if body >= 2 {
      if urgentFast <= body {
        StretchedFits(relaxedSeconds, body - urgentFast, secondsLeft);
      } else {
        StretchedFits(urgentSeconds, body / 2, secondsLeft);
        StretchedFits(relaxedSeconds, body - body / 2, secondsLeft);
        WiderStillFits(relaxedSeconds, body - body / 2,
                       StretchedInterval(relaxedSeconds, body - body / 2, secondsLeft), t.relaxed);
      }
    }
  }

  /** Every interval shorter than the closed form, down to full speed, breaks the budget. */
  lemma ShorterBreaksTheBudget(matchSeconds: real, callBudget: int, secondsLeft: real, k: int)
    requires matchSeconds > 0.0 && callBudget > 0
    requires FAST <= k < StretchedInterval(matchSeconds, callBudget, secondsLeft)
    ensures CallsOnly(matchSeconds, k) > callBudget
  {
    FitsIffLongEnough(matchSeconds, callBudget, k);
  }

  /**
    Detail is never slower than it must be. The urgent quarter stays at full
    speed while its calls fit, else it gets half of the calls; whatever either
    tier has, a shorter interval would not fit.
   */
  lemma NoFasterTierFits(matchSeconds: real, finishing: int, callBudget: int, secondsLeft: real, k: int)
    requires matchSeconds > 0.0 && k >= FAST && callBudget - Min(Max(0, finishing), callBudget) >= 2
    ensures var t := TieredIntervals(matchSeconds, finishing, callBudget, secondsLeft);
      var body := callBudget - Max(0, finishing);
      var urgentSeconds, relaxedSeconds := matchSeconds * 0.25, matchSeconds * 0.75;
      if CallsOnly(urgentSeconds, FAST) <= body then
        && t.urgent == FAST
        && (CallsOnly(urgentSeconds, FAST) < body && k < t.relaxed ==>
              CallsOnly(urgentSeconds, FAST) + CallsOnly(relaxedSeconds, k) > body)
      else
        && (k < t.urgent ==> CallsOnly(urgentSeconds, k) > body / 2)
        && (t.urgent <= k < t.relaxed ==> CallsOnly(relaxedSeconds, k) > body - body / 2)
  {
    var t := TieredIntervals(matchSeconds, finishing, callBudget, secondsLeft);
    var body := callBudget - Max(0, finishing);
    var urgentSeconds, relaxedSeconds := matchSeconds * URGENT_SHARE, matchSeconds - matchSeconds * URGENT_SHARE;
    assert urgentSeconds == matchSeconds * 0.25 && relaxedSeconds == matchSeconds * 0.75;
    var urgentFast := CallsOnly(urgentSeconds, FAST);
    if urgentFast <= body {
      if urgentFast < body && k < t.relaxed {
        ShorterBreaksTheBudget(relaxedSeconds, body - urgentFast, secondsLeft, k);
      }
    } else {
      if k < t.urgent { ShorterBreaksTheBudget(urgentSeconds, body / 2, secondsLeft, k); }
      if t.urgent <= k < t.relaxed { ShorterBreaksTheBudget(relaxedSeconds, body - body / 2, secondsLeft, k); }
    }
  }

  lemma CallsAre(matchSeconds: real, interval: int, calls: int)
    requires matchSeconds > 0.0 && interval > 0
    requires (calls - 1) as real * interval as real < matchSeconds <= calls as real * interval as real
    ensures CallsOnly(matchSeconds, interval) == calls
  {
    var q := matchSeconds / interval as real;
    assert q * interval as real == matchSeconds;
    assert (calls - 1) as real < q <= calls as real;
  }

  /** One call for a match of 2000 seconds: the tiers at 500 and 1500 seconds each need it. */
  lemma OneBodyCallIsPromisedTwice(matchSeconds: real, secondsLeft: real)
    requires matchSeconds == 2000.0 && secondsLeft == 10000.0
    ensures var t := TieredIntervals(matchSeconds, 0, 1, secondsLeft);
      t.urgent < Ceiling(secondsLeft) && t.relaxed < Ceiling(secondsLeft) && ImpliedCalls(t, matchSeconds, 0) == 2
  {
    var urgentSeconds := matchSeconds * URGENT_SHARE;
    var relaxedSeconds := matchSeconds - urgentSeconds;
    assert urgentSeconds == 500.0 && relaxedSeconds == 1500.0;
    CallsAre(urgentSeconds, FAST, 2);
    assert StretchedInterval(urgentSeconds, 1, secondsLeft) == 500;
    assert StretchedInterval(relaxedSeconds, 1, secondsLeft) == 1500;
    CallsAre(urgentSeconds, 500, 1);
    CallsAre(relaxedSeconds, 1500, 1);
  }

  // ---------------------------------------------------------------- the plan

  function DetailCalls(matchSeconds: real, finishing: int, interval: int): int {
    (if matchSeconds > 0.0 && interval > 0 then Ceil(matchSeconds / interval as real) else 0)
    + Max(0, finishing)
  }

  datatype Quality = Quality(
    interval: int,
    relaxed: int,
    detailNeed: int,
    oddsNeed: int,
    oneshotCalls: int,
    oneshotReserve: int,
    overloaded: bool)

  function OneshotReserve(cap: int, liveTicks: real): int {
    if cap <= 0 || liveTicks <= 0.0 then 0 else Ceil(cap as real * liveTicks)
  }

  function FitQuality(usable: int, scoreNeed: int, detailAtFast: int, idealOdds: int,
                      liveTicks: real, matchSeconds: real, finishing: int, secondsLeft: real): Quality
  {
    var full := OneshotReserve(ONESHOT_CALLS, liveTicks);
    var reduced := OneshotReserve(REDUCED_ONESHOT_CALLS, liveTicks);
    if scoreNeed + detailAtFast + idealOdds + full <= usable then
      Quality(FAST, FAST, detailAtFast, idealOdds, ONESHOT_CALLS, full, false)
    else if scoreNeed + detailAtFast + idealOdds + reduced <= usable then
      Quality(FAST, FAST, detailAtFast, idealOdds, REDUCED_ONESHOT_CALLS, reduced, false)
    else if scoreNeed + detailAtFast + idealOdds <= usable then
      Quality(FAST, FAST, detailAtFast, idealOdds, 0, 0, false)
    else if scoreNeed + detailAtFast <= usable then
      Quality(FAST, FAST, detailAtFast, 0, 0, 0, idealOdds > 0)
    else
      var tiers := TieredIntervals(matchSeconds, finishing, Max(0, usable - scoreNeed), secondsLeft);
      Quality(tiers.urgent, tiers.relaxed, tiers.calls, 0, 0, 0, true)
  }

  /** Context calls one tick may average: two cadence tiers, closing fetches and one-shots. */
  /** Calls a tick makes for so many matches, each due once in `interval` seconds. */
  function TierRate(matches: real, tick: real, interval: int): real
    requires interval > 0
  {
    matches * tick / interval as real
  }

  function ContextRate(interval: int, relaxed: int, detailNeed: int, oneshotCalls: int,
                       inPlay: bool, liveMatches: int, finishing: int, tick: real): real
  {
    var live := if inPlay && liveMatches > 0 && tick > 0.0 then
        (if interval > 0 then TierRate(liveMatches as real * URGENT_SHARE, tick, interval) else 0.0)
        + (if relaxed > 0 then TierRate(liveMatches as real * (1.0 - URGENT_SHARE), tick, relaxed) else 0.0)
      else 0.0;
    var closing := if finishing > 0 && interval > 0 && tick > 0.0 && detailNeed > 0
      then MinReal(FINAL_CALLS as real, finishing as real * tick / interval as real) else 0.0;
    var oneshots := if inPlay && oneshotCalls > 0 then oneshotCalls as real else 0.0;
    live + closing + oneshots
  }

  function AssemblePlan(scoreNeed: int, q: Quality, sleep: real, pollOdds: bool, buffer: int,
                        inPlay: bool, liveMatches: int, finishing: int, oddsRefresh: int): LiveBudgetPlan
  {
    var relaxed := Max(q.interval, q.relaxed);
    var capped := MinReal(MAX_CALLS_PER_TICK as real,
      ContextRate(q.interval, relaxed, q.detailNeed, q.oneshotCalls, inPlay, liveMatches, finishing, sleep));
    LiveBudgetPlan(
      scoreNeed, q.detailNeed, q.oddsNeed,
      Max(1, q.interval), Max(1, relaxed),
      Max(0, q.oneshotCalls), sleep, pollOdds, Max(1, oddsRefresh), q.overloaded, buffer,
      Max(0, q.oneshotReserve),
      Min(MAX_CALLS_PER_TICK, capped.Floor), capped,
      if sleep > 0.0 then (1.0 + capped) * 60.0 / sleep else 0.0)
  }

  /** What the sweep measures: match time, busy time and time left, in microseconds. */
  datatype Demand = Demand(matchMicros: int, busyMicros: int, dayMicros: int)

  datatype Board = Board(liveMatches: int, finishing: int, target: int, remaining: int, buffer: int)

  function IdealScore(d: Demand, target: int): int {
    var polls := Rounds(d.busyMicros, target as real)
                 + Rounds(d.dayMicros - d.busyMicros, IDLE_SCORE_POLL as real);
    if polls > 0.0 then Ceil(polls) else 0
  }

  function IdealOdds(d: Demand, target: int): int {
    var polls := Rounds(d.busyMicros, target as real);
    if polls > 0.0 then Ceil(polls) else 0
  }

  function Usable(b: Board): int { Max(0, b.remaining - b.buffer) }

  function SecondsLeft(d: Demand): real { MaxReal(1.0, Seconds(d.dayMicros)) }

  function Cadence(b: Board): real {
    if b.liveMatches > 0 then b.target as real else IDLE_SCORE_POLL as real
  }

  function PlanFor(b: Board, d: Demand): LiveBudgetPlan {
    var usable := Usable(b);
    var inPlay := b.liveMatches > 0;
    var secondsLeft := SecondsLeft(d);
    var matchSeconds := Seconds(d.matchMicros);
    var idealScore := IdealScore(d, b.target);
    if usable <= 0 then
      AssemblePlan(0, Quality(FAST, FAST, 0, 0, 0, 0, true), secondsLeft, false, b.buffer, inPlay, 0, 0, 60)
    else if idealScore > usable then
      var interval := Max(FAST, Ceil(secondsLeft));
      AssemblePlan(usable, Quality(interval, interval, 0, 0, 0, 0, true),
                   Cadence(b) * (idealScore as real / usable as real), false, b.buffer, false, 0, 0, 60)
    else
      var finishing := Max(0, b.finishing);
      var q := FitQuality(usable, idealScore, DetailCalls(matchSeconds, finishing, FAST),
                          IdealOdds(d, b.target), Rounds(d.busyMicros, b.target as real),
                          matchSeconds, finishing, secondsLeft);
      AssemblePlan(idealScore, q.(oneshotCalls := if inPlay then q.oneshotCalls else 0),
                   Cadence(b), inPlay && q.oddsNeed > 0, b.buffer,
                   inPlay, Max(0, b.liveMatches), finishing, Max(1, b.target))
  }

  lemma QualityWithinUsable(usable: int, scoreNeed: int, detailAtFast: int, idealOdds: int,
                            liveTicks: real, matchSeconds: real, finishing: int, secondsLeft: real)
    requires scoreNeed <= usable
    ensures var q := FitQuality(usable, scoreNeed, detailAtFast, idealOdds,
                                liveTicks, matchSeconds, finishing, secondsLeft);
      scoreNeed + q.detailNeed + q.oddsNeed + q.oneshotReserve <= usable && q.oneshotReserve >= 0
  {
    TiersAreOrderedAndAffordable(matchSeconds, finishing, Max(0, usable - scoreNeed), secondsLeft);
    if liveTicks > 0.0 {
      assert ONESHOT_CALLS as real * liveTicks >= 0.0 && REDUCED_ONESHOT_CALLS as real * liveTicks >= 0.0;
    }
  }

  /** Above the buffer the plan never promises a call it does not have. */
  lemma ReserveWithinUsable(b: Board, d: Demand)
    ensures PlanFor(b, d).ReservedCalls() <= Max(0, b.remaining - b.buffer)
  {
    var matchSeconds, finishing := Seconds(d.matchMicros), Max(0, b.finishing);
    if IdealScore(d, b.target) <= Usable(b) {
      QualityWithinUsable(Usable(b), IdealScore(d, b.target), DetailCalls(matchSeconds, finishing, FAST),
                          IdealOdds(d, b.target), Rounds(d.busyMicros, b.target as real),
                          matchSeconds, finishing, SecondsLeft(d));
    }
  }

  /** Overload is declared exactly when scores, full-speed detail and every odds poll do not fit together. */
  lemma OverloadedIffFullSpeedDoesNotFit(b: Board, d: Demand)
    requires b.remaining > b.buffer && IdealScore(d, b.target) <= Usable(b)
    ensures PlanFor(b, d).overloaded <==>
      IdealScore(d, b.target) + DetailCalls(Seconds(d.matchMicros), b.finishing, FAST) + IdealOdds(d, b.target)
        > Usable(b)
  {
    var ticks := Rounds(d.busyMicros, b.target as real);
    if ticks > 0.0 {
      assert ONESHOT_CALLS as real * ticks >= 0.0 && REDUCED_ONESHOT_CALLS as real * ticks >= 0.0;
    }
  }

  /** Out of stretch the reserve is the whole need: detail at full speed and odds are never shaved quietly. */
  lemma NotOverloadedMeansFullSpeed(b: Board, d: Demand)
    requires b.remaining > b.buffer && !PlanFor(b, d).overloaded
    ensures var p := PlanFor(b, d);
      && p.detailRefresh == FAST && p.relaxedRefresh == FAST
      && p.FullReserve() == IdealScore(d, b.target)
           + DetailCalls(Seconds(d.matchMicros), b.finishing, FAST) + IdealOdds(d, b.target)
  {
    if IdealScore(d, b.target) <= Usable(b) {
      OverloadedIffFullSpeedDoesNotFit(b, d);
    }
  }

  // ------------------------------------------------------- what the plan buys

  /** The polls of a day: one every target while something is in play, one in 300 seconds while nothing is. */
  function DayPolls(d: Demand, target: int): real {
    (if target > 0 then Seconds(d.busyMicros) / target as real else 0.0)
    + Seconds(d.dayMicros - d.busyMicros) / 300.0
  }

  /** Scores are reserved poll by poll, rounded up, as far as the calls above the buffer go. */
  lemma ScoresAreReservedPollByPoll(b: Board, d: Demand)
    requires 0 <= d.busyMicros <= d.dayMicros && b.remaining > b.buffer
    ensures var p := PlanFor(b, d);
      if DayPolls(d, b.target) > (b.remaining - b.buffer) as real then p.scoreNeed == b.remaining - b.buffer
      else (p.scoreNeed - 1) as real < DayPolls(d, b.target) <= p.scoreNeed as real
  {
    PollsNonNegative(d, b.target);
  }

  lemma PollsNonNegative(d: Demand, target: int)
    requires 0 <= d.busyMicros <= d.dayMicros
    ensures DayPolls(d, target) >= 0.0
    ensures DayPolls(d, target) == Rounds(d.busyMicros, target as real) + Rounds(d.dayMicros - d.busyMicros, 300.0)
    ensures IdealScore(d, target) == Ceil(DayPolls(d, target))
  {
    if target > 0 { assert Seconds(d.busyMicros) / target as real >= 0.0; }
  }

  /** The load that the board shows now lasts until midnight. */
  predicate SteadyLoad(b: Board, d: Demand) {
    d.dayMicros > 0 && d.busyMicros == if b.liveMatches > 0 then d.dayMicros else 0
  }

  /** Seconds between polls that the reserve was counted with. */
  function BoardCadence(b: Board): int { if b.liveMatches > 0 then b.target else 300 }

  lemma SteadyDayPolls(b: Board, d: Demand)
    requires SteadyLoad(b, d) && b.target > 0
    ensures DayPolls(d, b.target) == Seconds(d.dayMicros) / BoardCadence(b) as real
    ensures IdealScore(d, b.target) == Ceil(Seconds(d.dayMicros) / BoardCadence(b) as real)
  {
    PollsNonNegative(d, b.target);
  }

  /** Rounding up to whole polls; a day shorter than a second counts as one. */
  lemma PollsOfSpan(x: real, c: real)
    requires x > 0.0 && c >= 1.0
    ensures Ceil(x / c) >= 1
    ensures (Ceil(x / c) - 1) as real * c < MaxReal(1.0, x) <= Ceil(x / c) as real * c
  {
    var q, n := x / c, Ceil(x / c);
    assert q * c == x;
    assert q > 0.0;
    ScaleBoth((n - 1) as real, q, n as real, c);
    ScaleBoth(0.0, 1.0, n as real, c);
    if n == 1 { assert (n - 1) as real * c == 0.0; } else { AtLeastOneCadence(n, c); }
  }

  lemma AtLeastOneCadence(n: int, c: real)
    requires n >= 2 && c >= 1.0
    ensures (n - 1) as real * c >= 1.0
  {
    ScaleBoth(1.0, 1.0, (n - 1) as real, c);
  }

  lemma SteadyPolls(b: Board, d: Demand)
    requires SteadyLoad(b, d) && b.target > 0
    ensures var n := IdealScore(d, b.target);
      n >= 1 && (n - 1) as real * BoardCadence(b) as real < SecondsLeft(d) <= n as real * BoardCadence(b) as real
  {
    SteadyDayPolls(b, d);
    PollsOfSpan(Seconds(d.dayMicros), BoardCadence(b) as real);
  }

  lemma ScaleBoth(a: real, q: real, b: real, c: real)
    requires c > 0.0
    ensures a < q ==> a * c < q * c
    ensures q <= b ==> q * c <= b * c
  {
  }

  /** The scores fit above the buffer. */
  predicate ScoresFit(b: Board, d: Demand) {
    b.remaining > b.buffer && 0 <= d.busyMicros <= d.dayMicros
    && DayPolls(d, b.target) <= (b.remaining - b.buffer) as real
  }

  lemma Quotient(x: real, c: real, low: real, high: real)
    requires c > 0.0 && low * c < x <= high * c
    ensures low < x / c <= high
  {
    assert x / c * c == x;
  }

  /** A cadence stretched by n / u turns n polls into u. */
  lemma StretchedPolls(x: real, c: real, n: int, u: int)
    requires c > 0.0 && 0 < u < n && (n - 1) as real * c < x <= n as real * c
    ensures var poll := c * (n as real / u as real);
      poll > 0.0 && (u - 1) as real < x / poll <= u as real
  {
    var N, U := n as real, u as real;
    var s := N / U;
    assert s * U == N && s > 1.0;
    var poll := c * s;
    assert poll > 0.0 && U * poll == N * c;
    assert (U - 1.0) * poll == N * c - poll;
    assert poll > c;
    assert (n - 1) as real * c == N * c - c;
    Quotient(x, poll, (u - 1) as real, u as real);
  }

  lemma PollAndReserve(b: Board, d: Demand)
    requires b.remaining > b.buffer
    ensures var n, u, c := IdealScore(d, b.target), Usable(b), BoardCadence(b) as real;
      var p := PlanFor(b, d);
      if n <= u then p.scorePoll == c && p.scoreNeed == n
      else p.scorePoll == c * (n as real / u as real) && p.scoreNeed == u
  {
  }

  /** A cadence `c` that makes `n` polls of a span, kept while they fit and stretched to `u` of them when not. */
  predicate Paces(span: real, c: real, n: int, u: int, poll: real, need: int) {
    && c > 0.0 && u > 0 && n >= 1 && (n - 1) as real * c < span <= n as real * c
    && if n <= u then poll == c && need == n else poll == c * (n as real / u as real) && need == u
  }

  lemma PacedPolls(span: real, c: real, n: int, u: int, poll: real, need: int)
    requires Paces(span, c, n, u, poll, need)
    ensures poll > 0.0 && (need - 1) as real < span / poll <= need as real
  {
    if n <= u { Quotient(span, c, (n - 1) as real, n as real); } else { StretchedPolls(span, c, n, u); }
  }

  lemma PlanPaces(b: Board, d: Demand)
    requires SteadyLoad(b, d) && b.target > 0 && b.remaining > b.buffer
    ensures Paces(SecondsLeft(d), BoardCadence(b) as real, IdealScore(d, b.target), Usable(b),
                  PlanFor(b, d).scorePoll, PlanFor(b, d).scoreNeed)
  {
    SteadyPolls(b, d);
    PollAndReserve(b, d);
  }

  /**
    The cadence and the reserve agree: while the board stays as it is, polling
    every `scorePoll` seconds until midnight makes exactly the polls reserved,
    be it at the board's own cadence or stretched over what is left.
   */
  lemma CadenceMakesTheReservedPolls(b: Board, d: Demand)
    requires SteadyLoad(b, d) && b.target > 0 && b.remaining > b.buffer
    ensures var p := PlanFor(b, d);
      && p.scorePoll > 0.0
      && (p.scoreNeed - 1) as real < SecondsLeft(d) / p.scorePoll <= p.scoreNeed as real
  {
    PlanPaces(b, d);
    PacedPolls(SecondsLeft(d), BoardCadence(b) as real, IdealScore(d, b.target), Usable(b),
               PlanFor(b, d).scorePoll, PlanFor(b, d).scoreNeed);
  }

  /** While the polls fit, a live board is polled every target seconds and an empty one every 300. */
  lemma ScorePollFollowsTheBoard(b: Board, d: Demand)
    requires ScoresFit(b, d)
    ensures PlanFor(b, d).scorePoll == if b.liveMatches > 0 then b.target as real else 300.0
  {
    PollsNonNegative(d, b.target);
    PollAndReserve(b, d);
  }

  /** With nothing above the buffer, or less than the scores need, the rest stands still until midnight. */
  lemma StarvedPlanOnlyPollsScores(b: Board, d: Demand)
    requires 0 <= d.busyMicros <= d.dayMicros
    requires b.remaining <= b.buffer || DayPolls(d, b.target) > (b.remaining - b.buffer) as real
    ensures var p := PlanFor(b, d);
      && p.overloaded && p.detailNeed == p.oddsNeed == p.oneshotCalls == p.oneshotReserve == 0
      && !p.pollOdds && p.contextCallsPerTick == 0.0 && p.maxContextCalls == 0
      && (b.remaining <= b.buffer ==> p.scoreNeed == 0 && p.scorePoll == SecondsLeft(d))
      && (b.remaining > b.buffer ==> p.detailRefresh as real >= SecondsLeft(d))
  {
    PollsNonNegative(d, b.target);
  }

  /** One-shot calls per tick that the plan may reserve, and what a level costs over the day. */
  predicate Level(calls: int) { calls == 12 || calls == 4 || calls == 0 }

  function LevelCost(d: Demand, target: int, calls: int): int {
    if target <= 0 then 0 else Ceil(calls as real * (Seconds(d.busyMicros) / target as real))
  }

  lemma LevelCostIsReserve(d: Demand, target: int, calls: int)
    requires 0 <= d.busyMicros && Level(calls)
    ensures OneshotReserve(calls, Rounds(d.busyMicros, target as real)) == LevelCost(d, target, calls)
  {
    if target > 0 {
      var ticks := Seconds(d.busyMicros) / target as real;
      assert ticks >= 0.0;
      if calls == 0 { assert calls as real * ticks == 0.0; }
    }
  }

  /** A plan with odds takes the most one-shots that still fit, and none at all on an empty board. */
  lemma OneshotsAreTheMostThatFit(b: Board, d: Demand, more: int)
    requires ScoresFit(b, d) && !PlanFor(b, d).overloaded && PlanFor(b, d).oddsNeed > 0
    requires Level(more)
    ensures exists calls :: Level(calls) && var p := PlanFor(b, d);
      && p.oneshotReserve == LevelCost(d, b.target, calls)
      && p.oneshotCalls == (if b.liveMatches > 0 then calls else 0)
      && (more > calls ==> p.FullReserve() + LevelCost(d, b.target, more) > b.remaining - b.buffer)
  {
    PollsNonNegative(d, b.target);
    LevelCostIsReserve(d, b.target, 12);
    LevelCostIsReserve(d, b.target, 4);
    LevelCostIsReserve(d, b.target, 0);
    assert Level(12) && Level(4) && Level(0);
  }

  /** Odds are polled exactly on a live board with odds reserved, at a cadence that uses up exactly that reserve. */
  lemma OddsUseTheirReserve(b: Board, d: Demand)
    requires 0 <= d.busyMicros <= d.dayMicros
    ensures var p := PlanFor(b, d);
      && (p.pollOdds <==> b.liveMatches > 0 && p.oddsNeed > 0)
      && (p.oddsNeed > 0 ==> Ceil(Seconds(d.busyMicros) / p.oddsRefresh as real) == p.oddsNeed)
      && (ScoresFit(b, d) && !p.overloaded && b.target > 0 && d.busyMicros > 0 ==> p.oddsNeed > 0)
  {
    if b.target > 0 && d.busyMicros > 0 { assert Seconds(d.busyMicros) / b.target as real > 0.0; }
  }

  /** Without overload every match is refreshed every 300 seconds and every finishing one once more. */
  lemma FullSpeedDetail(b: Board, d: Demand)
    requires d.matchMicros >= 0 && b.remaining > b.buffer && !PlanFor(b, d).overloaded
    ensures var polls := PlanFor(b, d).detailNeed - Max(0, b.finishing);
      (polls - 1) as real * 300.0 < Seconds(d.matchMicros) <= polls as real * 300.0
  {
  }

  /** A minute has room for the score poll and the context calls of its ticks. */
  predicate FitsAMinute(p: LiveBudgetPlan) {
    p.scorePoll > 0.0 ==> p.allowedPerMinute == (1.0 + p.contextCallsPerTick) * 60.0 / p.scorePoll
  }

  lemma TicksFitAMinute(b: Board, d: Demand)
    ensures FitsAMinute(PlanFor(b, d))
  {
  }

  // --------------------------------------------------------- the context of a day

  /** Closing fetches a tick may average. */
  function ClosingRate(p: LiveBudgetPlan, finishing: int): real
    requires p.detailRefresh >= 1
  {
    if finishing > 0 && p.detailNeed > 0
    then MinReal(8.0, finishing as real * p.scorePoll / p.detailRefresh as real) else 0.0
  }

  /** The uncapped rate of the plan's own figures. */
  predicate RateOfFigures(p: LiveBudgetPlan, liveMatches: int, finishing: int) {
    && p.scorePoll > 0.0 && p.detailRefresh >= 1 && p.relaxedRefresh >= 1 && p.oneshotCalls >= 0
    && p.contextCallsPerTick
       == ContextRate(p.detailRefresh, p.relaxedRefresh, p.detailNeed, p.oneshotCalls, true,
                      liveMatches, Max(0, finishing), p.scorePoll)
  }

  /** A quarter of the matches at the urgent interval, the others at the relaxed one, and a rest. */
  predicate TiersRate(rate: real, liveMatches: real, rest: real, poll: real, urgent: int, relaxed: int) {
    && poll > 0.0 && urgent >= 1 && relaxed >= 1
    && rate == TierRate(liveMatches * 0.25, poll, urgent) + TierRate(liveMatches * 0.75, poll, relaxed) + rest
  }

  /** The same written out, the rest being closing fetches and one-shots. */
  predicate Rated(p: LiveBudgetPlan, liveMatches: int, finishing: int) {
    && p.detailRefresh >= 1
    && TiersRate(p.contextCallsPerTick, liveMatches as real, ClosingRate(p, finishing) + p.oneshotCalls as real,
                p.scorePoll, p.detailRefresh, p.relaxedRefresh)
  }

  lemma FiguresAreRated(p: LiveBudgetPlan, liveMatches: int, finishing: int)
    requires RateOfFigures(p, liveMatches, finishing) && liveMatches > 0
    ensures Rated(p, liveMatches, finishing)
  {
    assert URGENT_SHARE == 0.25 && 1.0 - URGENT_SHARE == 0.75;
  }

  lemma TiersAtLeastFast(matchSeconds: real, finishing: int, callBudget: int, secondsLeft: real)
    ensures var t := TieredIntervals(matchSeconds, finishing, callBudget, secondsLeft); FAST <= t.urgent <= t.relaxed
  {
    TiersAreOrderedAndAffordable(matchSeconds, finishing, callBudget, secondsLeft);
  }

  lemma PlanIsRated(b: Board, d: Demand)
    requires ScoresFit(b, d) && b.liveMatches > 0 && b.target > 0
    requires PlanFor(b, d).contextCallsPerTick < MAX_CALLS_PER_TICK as real
    ensures RateOfFigures(PlanFor(b, d), b.liveMatches, b.finishing)
  {
    PollsNonNegative(d, b.target);
    TiersAtLeastFast(Seconds(d.matchMicros), Max(0, b.finishing), Max(0, Usable(b) - IdealScore(d, b.target)),
                     SecondsLeft(d));
  }

  /** One tier's rate over the ticks of a span: `whole` is what it would make at one call a second. */
  lemma TermOverTicks(a: real, poll: real, interval: real, seconds: real, whole: real)
    requires poll > 0.0 && interval > 0.0 && whole == a * seconds
    ensures a * poll / interval * (seconds / poll) == whole / interval
  {
    var t := seconds / poll;
    assert t * poll == seconds;
    var q := a * poll / interval;
    assert q * interval == a * poll;
    assert q * t * interval == a * poll * t;
    assert a * poll * t == whole;
  }

  lemma ThreeTerms(total: real, x: real, y: real, z: real, ticks: real)
    requires total == x + y + z
    ensures (total - z) * ticks == x * ticks + y * ticks
  {
    assert total - z == x + y;
  }

  /** A rate made of two tiers and a rest, over the ticks of a span. */
  lemma TiersOverTheSpan(rate: real, a: real, b: real, rest: real, poll: real, urgent: real, relaxed: real,
                         seconds: real, wholeA: real, wholeB: real)
    requires poll > 0.0 && urgent > 0.0 && relaxed > 0.0 && wholeA == a * seconds && wholeB == b * seconds
    requires rate == a * poll / urgent + b * poll / relaxed + rest
    ensures (rate - rest) * (seconds / poll) == wholeA / urgent + wholeB / relaxed
  {
    TermOverTicks(a, poll, urgent, seconds, wholeA);
    TermOverTicks(b, poll, relaxed, seconds, wholeB);
    ThreeTerms(rate, a * poll / urgent, b * poll / relaxed, rest, seconds / poll);
  }

  /** Polling for a span at this rate, what is beyond the rest comes to the detail calls both tiers imply. */
  predicate ImpliesOver(rate: real, l: real, rest: real, poll: real, urgent: int, relaxed: int, seconds: real) {
    && poll > 0.0
    && var implied := ImpliedCalls(Tiers(urgent, relaxed, 0), l * seconds, 0);
       implied as real - 2.0 < (rate - rest) * (seconds / poll) <= implied as real
  }

  /**
    Polling a live board for a span, the context calls beyond closing fetches
    and one-shots come to the detail calls that both cadence tiers imply for it,
    each rounded up.
   */
  predicate MakesTheImpliedDetail(p: LiveBudgetPlan, liveMatches: int, finishing: int, seconds: real) {
    && p.detailRefresh >= 1
    && ImpliesOver(p.contextCallsPerTick, liveMatches as real, ClosingRate(p, finishing) + p.oneshotCalls as real,
                   p.scorePoll, p.detailRefresh, p.relaxedRefresh, seconds)
  }

  lemma ImpliedIsRoundedUp(urgent: int, relaxed: int, matchSeconds: real)
    requires matchSeconds > 0.0 && urgent >= 1 && relaxed >= 1
    ensures var implied := ImpliedCalls(Tiers(urgent, relaxed, 0), matchSeconds, 0);
      var exact := matchSeconds * 0.25 / urgent as real + matchSeconds * 0.75 / relaxed as real;
      implied as real - 2.0 < exact <= implied as real
  {
    assert matchSeconds - matchSeconds * URGENT_SHARE == matchSeconds * 0.75;
  }

  lemma SpanOfMatches(l: real, seconds: real)
    requires l > 0.0 && seconds > 0.0
    ensures l * seconds > 0.0
    ensures l * 0.25 * seconds == l * seconds * 0.25 && l * 0.75 * seconds == l * seconds * 0.75
  {
  }

  lemma SpanImplies(rate: real, l: real, rest: real, poll: real, urgent: int, relaxed: int, seconds: real)
    requires TiersRate(rate, l, rest, poll, urgent, relaxed) && l > 0.0 && seconds > 0.0
    ensures ImpliesOver(rate, l, rest, poll, urgent, relaxed, seconds)
  {
    SpanOfMatches(l, seconds);
    TiersOverTheSpan(rate, l * 0.25, l * 0.75, rest, poll, urgent as real, relaxed as real, seconds,
                     l * seconds * 0.25, l * seconds * 0.75);
    ImpliedIsRoundedUp(urgent, relaxed, l * seconds);
  }

  lemma ImpliedOverTheSpan(p: LiveBudgetPlan, liveMatches: int, finishing: int, seconds: real)
    requires Rated(p, liveMatches, finishing) && liveMatches > 0 && seconds > 0.0
    ensures MakesTheImpliedDetail(p, liveMatches, finishing, seconds)
  {
    SpanImplies(p.contextCallsPerTick, liveMatches as real, ClosingRate(p, finishing) + p.oneshotCalls as real,
                p.scorePoll, p.detailRefresh, p.relaxedRefresh, seconds);
  }

  /** Below its cap, the context rate is what the detail of the day costs. */
  lemma ContextMakesTheImpliedDetail(b: Board, d: Demand, seconds: real)
    requires ScoresFit(b, d) && b.liveMatches > 0 && b.target > 0 && seconds > 0.0
    requires PlanFor(b, d).contextCallsPerTick < MAX_CALLS_PER_TICK as real
    ensures MakesTheImpliedDetail(PlanFor(b, d), b.liveMatches, b.finishing, seconds)
  {
    PlanIsRated(b, d);
    FiguresAreRated(PlanFor(b, d), b.liveMatches, b.finishing);
    ImpliedOverTheSpan(PlanFor(b, d), b.liveMatches, b.finishing, seconds);
  }

  /** Every cadence the plan hands out is ordered, and a context tick stays within its hard cap. */
  lemma PlanCadencesOrdered(b: Board, d: Demand)
    ensures var p := PlanFor(b, d);
      && 1 <= p.detailRefresh <= p.relaxedRefresh
      && p.maxContextCalls <= MAX_CALLS_PER_TICK
      && p.maxContextCalls as real <= p.contextCallsPerTick <= MAX_CALLS_PER_TICK as real
      && p.contextCallsPerTick < (p.maxContextCalls + 1) as real
  {
  }

  // ------------------------------------------------------- from the real load

  function UtcMidnightAfter(now: int): int { (now / DAY + 1) * DAY }

  lemma MidnightIsAhead(now: int)
    ensures now < UtcMidnightAfter(now) <= now + DAY && UtcMidnightAfter(now) % DAY == 0
  {
  }

  /** Demand counted instant by instant from the board and the forecast. */
  ghost function TrueDemand(now: int, liveMatches: int, forecast: seq<KickoffLoad>): Demand {
    var midnight := UtcMidnightAfter(now);
    var load := t => InPlayAt(now, liveMatches, forecast, t);
    Demand(SumOver(load, now, midnight), SumOver(Busy(load), now, midnight), midnight - now)
  }

  /** A bare count of matches left stands for that many kickoffs now. */
  function ResolveForecast(forecast: Option<seq<KickoffLoad>>, matchesLeft: Option<int>, now: int): seq<KickoffLoad> {
    if forecast.Some? then forecast.value
    else if matchesLeft.None? || matchesLeft.value <= 0 then []
    else [KickoffLoad(now, matchesLeft.value)]
  }

  /** Without a forecast, a bare count of matches left is in play from now on for the length of a match. */
  lemma BareCountKicksOffNow(matchesLeft: Option<int>, now: int, t: int)
    ensures InPlayAt(now, 0, ResolveForecast(None, matchesLeft, now), t)
      == if matchesLeft.Some? && matchesLeft.value > 0 && now <= t < now + MATCH_LIVE_SPAN then matchesLeft.value else 0
    ensures forall forecast: seq<KickoffLoad> {:trigger ResolveForecast(Some(forecast), matchesLeft, now)} ::
      ResolveForecast(Some(forecast), matchesLeft, now) == forecast
  {
    var forecast := ResolveForecast(None, matchesLeft, now);
    if forecast != [] { assert forecast[..0] == []; }
  }

  method PlanLiveBudget(liveMatches: int, remaining: int, now: int, target: int,
                        matchesLeft: Option<int>, forecast: Option<seq<KickoffLoad>>,
                        finishing: int, limitDay: int, bufferPercent: real)
    returns (plan: LiveBudgetPlan)
    ensures plan == PlanFor(
      Board(liveMatches, finishing, target, remaining, SafetyBuffer(limitDay, bufferPercent)),
      TrueDemand(now, liveMatches, ResolveForecast(forecast, matchesLeft, now)))
    ensures plan.ReservedCalls() <= Max(0, remaining - SafetyBuffer(limitDay, bufferPercent))
    ensures 1 <= plan.detailRefresh <= plan.relaxedRefresh && plan.maxContextCalls <= MAX_CALLS_PER_TICK
  {
    var midnight := UtcMidnightAfter(now);
    MidnightIsAhead(now);
    var load := ResolveForecast(forecast, matchesLeft, now);
    var windows := Windows(now, midnight, Max(0, liveMatches), load);
    var segments := Segments(now, midnight, windows);
    var matchMicros := MatchMicros(windows, now, midnight);
    var busyMicros := BusyMicros(segments, Load(windows), now, midnight);

    ghost var inPlay := t => InPlayAt(now, liveMatches, load, t);
    BoardBelowZeroIsEmpty(now, liveMatches, load);
    ClippedIntegratesLoad(windows, now, midnight);
    SumSame(Load(windows), inPlay, now, midnight);
    SumSame(Busy(Load(windows)), Busy(inPlay), now, midnight);

    var board := Board(liveMatches, finishing, target, remaining, SafetyBuffer(limitDay, bufferPercent));
    plan := PlanFor(board, Demand(matchMicros, busyMicros, midnight - now));
    ReserveWithinUsable(board, Demand(matchMicros, busyMicros, midnight - now));
    PlanCadencesOrdered(board, Demand(matchMicros, busyMicros, midnight - now));
  }

  lemma {:induction false} BoardBelowZeroIsEmpty(now: int, liveMatches: int, forecast: seq<KickoffLoad>)
    ensures forall t :: InPlayAt(now, Max(0, liveMatches), forecast, t) == InPlayAt(now, liveMatches, forecast, t)
  {
    if forecast != [] {
      BoardBelowZeroIsEmpty(now, liveMatches, forecast[..|forecast| - 1]);
    }
  }

  // ------------------------------------------------------------------ gates

  /** History runs only above the full live reserve. Scores always run. */
  predicate QuotaAllows(priority: int, remaining: int, plan: LiveBudgetPlan) {
    if remaining <= 0 || remaining <= plan.safetyBuffer then false
    else if priority <= 2 then true
    else
      var protected := plan.safetyBuffer + plan.scoreNeed;
      if remaining <= protected then false
      else if priority == 3 then plan.contextCallsPerTick > 0.0
      else if plan.overloaded then false
      else if priority == 4 then plan.pollOdds && remaining > protected + plan.detailNeed
      else remaining > plan.safetyBuffer + plan.FullReserve()
  }

  /** What every lane stronger than this one still has to spend. */
  function StrongerReserve(priority: int, plan: LiveBudgetPlan): int {
    if priority <= 2 then 0
    else if priority == 3 then plan.scoreNeed
    else if priority == 4 then plan.scoreNeed + plan.detailNeed
    else plan.scoreNeed + plan.detailNeed + plan.oddsNeed
  }

  /** The lane is used by this plan at all. */
  predicate LaneOpen(priority: int, plan: LiveBudgetPlan) {
    && (priority == 3 ==> plan.contextCallsPerTick > 0.0)
    && (priority == 4 ==> plan.pollOdds)
    && (priority >= 4 ==> !plan.overloaded)
  }

  /**
    A slot runs exactly when its lane is open and one more call would still
    leave the buffer and all that the stronger lanes have reserved.
   */
  lemma AllowedIffStrongerLanesKeepTheirs(priority: int, remaining: int, plan: LiveBudgetPlan)
    requires plan.safetyBuffer >= 0 && plan.scoreNeed >= 0 && plan.detailNeed >= 0 && plan.oddsNeed >= 0
    ensures QuotaAllows(priority, remaining, plan)
      <==> LaneOpen(priority, plan) && remaining - 1 >= plan.safetyBuffer + StrongerReserve(priority, plan)
  {
  }

  /** A slot that history may use leaves the buffer and the whole reserve, and scores could run too. */
  lemma HistoryNeedsSurplus(priority: int, remaining: int, plan: LiveBudgetPlan)
    requires priority >= 5 && QuotaAllows(priority, remaining, plan)
    requires plan.detailNeed >= 0 && plan.oddsNeed >= 0
    ensures remaining - plan.safetyBuffer - plan.FullReserve() >= 1 && !plan.overloaded
    ensures plan.pollOdds ==> QuotaAllows(4, remaining, plan)
    ensures plan.contextCallsPerTick > 0.0 ==> QuotaAllows(3, remaining, plan)
    ensures QuotaAllows(2, remaining, plan)
  {
  }
}
