/**
  Settlement after the final whistle: what one pass does to a leg and to a
  coupon, why a second pass with the same facts does nothing, and what a
  later correction or a manual settlement can still change.
 */
module Settle {
  import opened Prelude
  import opened Coupons
  import Domain

  const CONTROL_REFRESH := 24 * 3600 * 1_000_000   // CONTROL_REFRESH_HOURS, in microseconds

  /** A fixture as settlement reads it; `refreshed` is whether its detail task is complete. */
  datatype FixtureRow = FixtureRow(
    status: Domain.Status, kickoff: Option<int>, fulltime: Domain.Pair, extratime: Domain.Pair, refreshed: bool)

  type Results = map<int, FixtureRow>

  function FinalScoreOf(row: FixtureRow, now: int): Domain.FinalScore {
    Domain.FinalScore(
      row.status, row.fulltime, row.extratime, row.refreshed,
      !Domain.Finished(row.status) && row.kickoff.Some? && now - row.kickoff.value >= CONTROL_REFRESH)
  }

  predicate InsideCorrectionWindow(row: FixtureRow, now: int) {
    row.kickoff.None? || now - row.kickoff.value <= CONTROL_REFRESH
  }

  function Terminal(s: Domain.Settlement): Option<LegStatus> {
    match s
    case Won => Some(LegWon)
    case Lost => Some(LegLost)
    case Void => Some(LegVoid)
    case Manual => Some(LegManual)
    case Pending => None
  }

  function VerdictFor(l: Leg, row: FixtureRow, now: int): Option<LegStatus> {
    Terminal(Domain.SettleLeg(l.period, l.n, FinalScoreOf(row, now)))
  }

  /** One leg row of a pass. */
  function SettledLeg(l: Leg, results: Results, now: int): Leg {
    if l.status == Removed || l.fixture !in results then l
    else
      var row := results[l.fixture];
      var verdict := VerdictFor(l, row, now);
      if verdict.None? || verdict.value == l.status then l
      else if l.status != LegOpen && !InsideCorrectionWindow(row, now) then l
      else
        var source := if l.status == LegOpen then Source.Settle else Correction;
        l.(status := verdict.value, log := l.log + [LegEvent(l.status, verdict.value, source)])
  }

  function SettledLegs(legs: seq<Leg>, results: Results, now: int): (r: seq<Leg>)
    ensures |r| == |legs|
    ensures forall i :: 0 <= i < |r| ==> r[i] == SettledLeg(legs[i], results, now)
  {
    seq(|legs|, i requires 0 <= i < |legs| => SettledLeg(legs[i], results, now))
  }

  /** A removed leg is out of the coupon, so it counts as void. */
  function AsSettlement(s: LegStatus): Domain.Settlement {
    match s
    case LegWon => Domain.Won
    case LegLost => Domain.Lost
    case LegVoid => Domain.Void
    case Removed => Domain.Void
    case LegManual => Domain.Manual
    case LegOpen => Domain.Pending
  }

  function Outcomes(legs: seq<Leg>): (r: seq<Domain.Settlement>)
    ensures |r| == |legs|
    ensures forall i :: 0 <= i < |r| ==> r[i] == AsSettlement(legs[i].status)
  {
    seq(|legs|, i requires 0 <= i < |legs| => AsSettlement(legs[i].status))
  }

  function WonOdds(legs: seq<Leg>): seq<int> {
    if legs == [] then []
    else
      var last := legs[|legs| - 1];
      WonOdds(legs[..|legs| - 1]) + if AsSettlement(last.status) == Domain.Void then [] else [last.odd]
  }

  function AsStatus(s: Domain.Settlement): CouponStatus
    requires s in {Domain.Won, Domain.Lost, Domain.Void}
  {
    match s
    case Won => Won
    case Lost => Lost
    case Void => Void
  }

  /** A coupon whose legs were touched: rewritten once its legs are decisive. */
  function RefreshedCoupon(c: Coupon): Coupon {
    if c.legs == [] then c else
    var result := Domain.SettleCoupon(Outcomes(c.legs));
    if result !in {Domain.Won, Domain.Lost, Domain.Void} then c
    else
      var status := AsStatus(result);
      var active := Domain.CombinedOdd(WonOdds(c.legs));
      var odd := if result == Domain.Won && active.Some? then active.value else c.combinedOdd;
      if c.status == status && c.combinedOdd == odd then c
      else
        var source := if c.status in {Open, Placed} then Source.Settle else Correction;
        c.(status := status, combinedOdd := odd, verdicts := c.verdicts + [CouponEvent(Some(c.status), status, source)])
  }

  predicate InPlay(s: CouponStatus) { s == Open || s == Placed }

  predicate Settleable(s: CouponStatus) { s in {Open, Placed} || Settled(s) }

  /** The whole effect of one pass on one coupon, in no particular row order. */
  function SettledCoupon(c: Coupon, results: Results, now: int): Coupon {
    if !Settleable(c.status) then c
    else
      var legs := SettledLegs(c.legs, results, now);
      if legs == c.legs then c else RefreshedCoupon(c.(legs := legs))
  }

  /** One pass over all coupons, each on its own. */
  function WholePass(coupons: seq<Coupon>, results: Results, now: int): (r: seq<Coupon>)
    ensures |r| == |coupons|
    ensures forall i :: 0 <= i < |r| ==> r[i] == SettledCoupon(coupons[i], results, now)
  {
    seq(|coupons|, i requires 0 <= i < |coupons| => SettledCoupon(coupons[i], results, now))
  }

  // ------------------------------------------------------------- one pass

  /** A second pass over the same facts changes nothing and writes no row. */
  lemma SecondPassIsSilent(c: Coupon, results: Results, now: int)
    ensures SettledCoupon(SettledCoupon(c, results, now), results, now) == SettledCoupon(c, results, now)
  {
    var after := SettledCoupon(c, results, now);
    if Settleable(c.status) {
      forall i | 0 <= i < |after.legs| ensures SettledLeg(after.legs[i], results, now) == after.legs[i] {
        assert after.legs[i] == SettledLeg(c.legs[i], results, now);
      }
      assert SettledLegs(after.legs, results, now) == after.legs;
    }
  }

  /** The odds of exactly the legs that won. */
  ghost function WinningOdds(legs: seq<Leg>): multiset<int> {
    if legs == [] then multiset{}
    else
      var last := legs[|legs| - 1];
      WinningOdds(legs[..|legs| - 1]) + if last.status == LegWon then multiset{last.odd} else multiset{}
  }

  /** On a coupon that wins, the odds that are not void are those of the legs that won. */
  lemma {:induction false} PricedByWinners(legs: seq<Leg>)
    requires forall i :: 0 <= i < |legs| ==> legs[i].status in {LegWon, LegVoid, Removed}
    ensures multiset(WonOdds(legs)) == WinningOdds(legs)
  {
    if legs != [] { PricedByWinners(legs[..|legs| - 1]); }
  }

  lemma WinningLegs(legs: seq<Leg>)
    requires legs != [] && Domain.SettleCoupon(Outcomes(legs)) == Domain.Won
    ensures forall i :: 0 <= i < |legs| ==> legs[i].status in {LegWon, LegVoid, Removed}
  {
    Domain.WonExactly(Outcomes(legs));
    forall i | 0 <= i < |legs| ensures legs[i].status in {LegWon, LegVoid, Removed} {
      assert Outcomes(legs)[i] in Outcomes(legs);
    }
  }

  /**
    A touched coupon whose legs are decisive ends as its legs say: lost by any
    lost leg, void when nothing is left of it, else won and priced by the odds
    of the legs that won, listed in any order. Nothing else of it changes.
   */
  lemma TouchedCouponAgreesWithLegs(c: Coupon, results: Results, now: int, won: seq<int>)
    requires Settleable(c.status) && SettledLegs(c.legs, results, now) != c.legs
    requires multiset(won) == WinningOdds(SettledLegs(c.legs, results, now))
    ensures var legs := SettledLegs(c.legs, results, now);
      var after := SettledCoupon(c, results, now);
      var verdict := Domain.SettleCoupon(Outcomes(legs));
      && after.legs == legs
      && (verdict in {Domain.Won, Domain.Lost, Domain.Void} ==> after.status == AsStatus(verdict))
      && after.combinedOdd == (if verdict == Domain.Won && Domain.CombinedOdd(won).Some?
                               then Domain.CombinedOdd(won).value else c.combinedOdd)
      && after.verdicts == (if after.status == c.status && after.combinedOdd == c.combinedOdd then c.verdicts
                            else c.verdicts + [CouponEvent(Some(c.status), after.status,
                                                           if InPlay(c.status) then Source.Settle else Correction)])
      && after == c.(legs := legs, status := after.status, combinedOdd := after.combinedOdd,
                     verdicts := after.verdicts)
      && (verdict in {Domain.Pending, Domain.Manual} ==> after == c.(legs := legs))
  {
    var legs := SettledLegs(c.legs, results, now);
    if Domain.SettleCoupon(Outcomes(legs)) == Domain.Won {
      WinningLegs(legs);
      PricedByWinners(legs);
      Domain.CombinedIgnoresOrder(won, WonOdds(legs));
    }
  }

  lemma {:induction false} VoidOddIsNoWinner(legs: seq<Leg>, i: nat, odd: int)
    requires i < |legs| && legs[i].status in {LegVoid, Removed}
    ensures WinningOdds(legs[i := legs[i].(odd := odd)]) == WinningOdds(legs)
  {
    var n := |legs| - 1;
    var other := legs[i := legs[i].(odd := odd)];
    if i < n {
      assert other[..n] == legs[..n][i := legs[i].(odd := odd)];
      VoidOddIsNoWinner(legs[..n], i, odd);
    } else {
      assert other[..n] == legs[..n];
    }
  }

  lemma VoidOddSamePrice(legs: seq<Leg>, i: nat, odd: int)
    requires i < |legs| && legs[i].status in {LegVoid, Removed}
    ensures var other := legs[i := legs[i].(odd := odd)];
      && Outcomes(other) == Outcomes(legs)
      && (Domain.SettleCoupon(Outcomes(legs)) == Domain.Won ==>
            Domain.CombinedOdd(WonOdds(other)) == Domain.CombinedOdd(WonOdds(legs)))
  {
    var other := legs[i := legs[i].(odd := odd)];
    assert Outcomes(other) == Outcomes(legs);
    if Domain.SettleCoupon(Outcomes(legs)) == Domain.Won {
      WinningLegs(legs);
      PricedByWinners(legs);
      PricedByWinners(other);
      VoidOddIsNoWinner(legs, i, odd);
      Domain.CombinedIgnoresOrder(WonOdds(other), WonOdds(legs));
    }
  }

  lemma SamePriceSameRow(c: Coupon, legs: seq<Leg>)
    requires c.legs != [] && Outcomes(legs) == Outcomes(c.legs)
    requires Domain.SettleCoupon(Outcomes(c.legs)) == Domain.Won ==>
      Domain.CombinedOdd(WonOdds(legs)) == Domain.CombinedOdd(WonOdds(c.legs))
    ensures var other := RefreshedCoupon(c.(legs := legs));
      other.status == RefreshedCoupon(c).status && other.combinedOdd == RefreshedCoupon(c).combinedOdd
  {
    assert |legs| == |Outcomes(legs)| == |c.legs|;
  }

  /** Whatever odd a void leg carries, the coupon settles with the same status at the same price. */
  lemma VoidOddNeverPays(c: Coupon, i: nat, odd: int)
    requires i < |c.legs| && c.legs[i].status in {LegVoid, Removed}
    ensures var other := RefreshedCoupon(c.(legs := c.legs[i := c.legs[i].(odd := odd)]));
      other.status == RefreshedCoupon(c).status && other.combinedOdd == RefreshedCoupon(c).combinedOdd
  {
    VoidOddSamePrice(c.legs, i, odd);
    SamePriceSameRow(c, c.legs[i := c.legs[i].(odd := odd)]);
  }

  /**
    The exact condition under which a pass rewrites a leg: it is still on the
    coupon, its match is known, the match says something terminal and new, and
    the leg is open or the match kicked off at most 24 hours ago.
   */
  lemma LegIsRewrittenIff(l: Leg, results: Results, now: int)
    ensures var after := SettledLeg(l, results, now);
      && (after != l <==>
            && l.status != Removed && l.fixture in results
            && VerdictFor(l, results[l.fixture], now) !in {None, Some(l.status)}
            && (l.status == LegOpen || results[l.fixture].kickoff.None?
                || now - results[l.fixture].kickoff.value <= 86_400_000_000))
      && (after != l ==>
            && Some(after.status) == VerdictFor(l, results[l.fixture], now)
            && after == l.(status := after.status,
                           log := l.log + [LegEvent(l.status, after.status,
                                                    if l.status == LegOpen then Source.Settle else Correction)]))
  {
    var after := SettledLeg(l, results, now);
    if after.log != l.log { assert |after.log| == |l.log| + 1; }
  }

  /** An open leg on a match that never finished goes to an operator from 24 hours after kickoff on, not before. */
  lemma UnfinishedGoesManualAfterADay(l: Leg, row: FixtureRow, now: int)
    requires row.status !in {Domain.FT, Domain.AET, Domain.PEN}
    requires row.status !in {Domain.PST, Domain.CANC, Domain.ABD, Domain.AWD, Domain.WO}
    ensures VerdictFor(l, row, now) == (if row.kickoff.Some? && now >= row.kickoff.value + 86_400_000_000
                                        then Some(LegManual) else None)
  {
  }

  /** A finished match whose detail is complete settles a leg by the goals of the leg's own period. */
  lemma FinishedSettlesByPeriod(l: Leg, row: FixtureRow, now: int)
    requires row.status in {Domain.FT, Domain.AET, Domain.PEN}
    ensures var goals := if l.period == Domain.Regulation then row.fulltime else row.extratime;
      VerdictFor(l, row, now)
      == if !row.refreshed then None
         else if goals.None? then Some(LegManual)
         else if goals.value.0 + goals.value.1 > l.n then Some(LegWon)
         else Some(LegLost)
  {
  }

  /** Outside the correction window only legs still open can change. */
  lemma ClosedLegsAreFrozenAfterWindow(l: Leg, results: Results, now: int)
    requires l.fixture in results && !InsideCorrectionWindow(results[l.fixture], now)
    ensures l.status != LegOpen ==> SettledLeg(l, results, now) == l
  {
  }

  datatype Pass = Pass(results: Results, now: int)

  function LegAfter(l: Leg, passes: seq<Pass>): Leg {
    if passes == [] then l
    else
      var last := passes[|passes| - 1];
      SettledLeg(LegAfter(l, passes[..|passes| - 1]), last.results, last.now)
  }

  /** Once its window has closed a settled leg keeps its verdict and its log through every later pass. */
  lemma {:induction false} VerdictIsFinalAfterWindow(l: Leg, passes: seq<Pass>)
    requires l.status != LegOpen
    requires forall k :: 0 <= k < |passes| && l.fixture in passes[k].results ==>
      !InsideCorrectionWindow(passes[k].results[l.fixture], passes[k].now)
    ensures LegAfter(l, passes) == l
  {
    if passes != [] {
      var last := passes[|passes| - 1];
      VerdictIsFinalAfterWindow(l, passes[..|passes| - 1]);
      if l.fixture in last.results { ClosedLegsAreFrozenAfterWindow(l, last.results, last.now); }
    }
  }

  lemma SettledLegKeepsOk(l: Leg, results: Results, now: int)
    requires LegOk(l)
    ensures var after := SettledLeg(l, results, now);
      && LegOk(after) && after.odd == l.odd
      && (after.status == Removed <==> l.status == Removed)
      && (after.status == LegOpen ==> after == l)
      && |after.log| <= |l.log| + 1
  {
    var after := SettledLeg(l, results, now);
    if after != l {
      assert after.log[..|after.log| - 1] == l.log;
    }
  }

  lemma SettledLegsAreOk(legs: seq<Leg>, results: Results, now: int)
    requires forall i :: 0 <= i < |legs| ==> LegOk(legs[i])
    ensures var after := SettledLegs(legs, results, now);
      && (forall i :: 0 <= i < |after| ==> LegOk(after[i]))
      && (after == [] <==> legs == []) && ActiveOdds(after) == ActiveOdds(legs)
  {
    var after := SettledLegs(legs, results, now);
    forall i | 0 <= i < |after|
      ensures LegOk(after[i]) && after[i].odd == legs[i].odd
      ensures after[i].status == Removed <==> legs[i].status == Removed
    {
      SettledLegKeepsOk(legs[i], results, now);
    }
    SameActiveOdds(legs, after);
  }

  /** What is left to show of a coupon in play or settled, once its legs and its price are in order. */
  lemma OtherLegsKeepOk(c: Coupon, legs: seq<Leg>, priced: Option<int>)
    requires Settleable(c.status) && Replays(Birth(c.mode), c.moves + c.verdicts, c.status)
    requires !Settled(c.status) ==> c.verdicts == []
    requires c.mode == Sandbox ==> c.moves == [] && (c.status == Open || Settled(c.status))
    requires c.mode == Recommendation ==> c.status != Open
    requires InPlay(c.status) ==> priced == Some(c.combinedOdd)
    requires legs != [] && ActiveOdds(legs) != [] && Domain.CombinedOdd(ActiveOdds(legs)) == priced
    requires forall i :: 0 <= i < |legs| ==> LegOk(legs[i])
    ensures CouponOk(c.(legs := legs))
  {
  }

  lemma SettledLegsKeepOk(c: Coupon, results: Results, now: int)
    requires CouponOk(c) && Settleable(c.status)
    ensures CouponOk(c.(legs := SettledLegs(c.legs, results, now)))
  {
    SettledLegsAreOk(c.legs, results, now);
    OtherLegsKeepOk(c, SettledLegs(c.legs, results, now), Domain.CombinedOdd(ActiveOdds(c.legs)));
  }

  lemma VerdictReplays(c: Coupon, status: CouponStatus, source: Source)
    requires Replays(Birth(c.mode), c.moves + c.verdicts, c.status)
    ensures Replays(Birth(c.mode), c.moves + (c.verdicts + [CouponEvent(Some(c.status), status, source)]), status)
  {
    var all := c.moves + (c.verdicts + [CouponEvent(Some(c.status), status, source)]);
    assert all[..|all| - 1] == c.moves + c.verdicts;
  }

  /** A verdict written on a coupon in play or settled. */
  function Verdicted(c: Coupon, status: CouponStatus, odd: int): Coupon {
    var source := if InPlay(c.status) then Source.Settle else Correction;
    c.(status := status, combinedOdd := odd, verdicts := c.verdicts + [CouponEvent(Some(c.status), status, source)])
  }

  lemma VerdictedIsOk(c: Coupon, status: CouponStatus, odd: int)
    requires CouponOk(c) && Settleable(c.status) && Settled(status)
    ensures CouponOk(Verdicted(c, status, odd))
  {
    VerdictReplays(c, status, if InPlay(c.status) then Source.Settle else Correction);
  }

  lemma RefreshWritesAVerdict(c: Coupon)
    requires RefreshedCoupon(c) != c
    ensures Settled(RefreshedCoupon(c).status)
    ensures RefreshedCoupon(c) == Verdicted(c, RefreshedCoupon(c).status, RefreshedCoupon(c).combinedOdd)
  {
  }

  lemma RefreshKeepsOk(c: Coupon)
    requires CouponOk(c) && Settleable(c.status)
    ensures CouponOk(RefreshedCoupon(c))
  {
    var after := RefreshedCoupon(c);
    if after == c {
      SameCouponOk(c, after);
    } else {
      RefreshWritesAVerdict(c);
      VerdictedIsOk(c, after.status, after.combinedOdd);
      SameCouponOk(Verdicted(c, after.status, after.combinedOdd), after);
    }
  }

  lemma SettlePreservesOk(c: Coupon, results: Results, now: int)
    requires CouponOk(c)
    ensures CouponOk(SettledCoupon(c, results, now))
  {
    if Settleable(c.status) {
      SettledLegsKeepOk(c, results, now);
      RefreshKeepsOk(c.(legs := SettledLegs(c.legs, results, now)));
    }
  }

  // ------------------------------------------------- settlement by hand

  /** An operator decides a leg that settlement left to a person. The coupon row is not refreshed. */
  function HandSettled(c: Coupon, leg: nat, outcome: LegStatus): Option<Coupon> {
    if outcome !in {LegWon, LegLost, LegVoid} then None
    else if leg >= |c.legs| || c.legs[leg].status != LegManual then None
    else
      var l := c.legs[leg];
      Some(c.(legs := c.legs[leg := l.(status := outcome, log := l.log + [LegEvent(LegManual, outcome, ByHand)])]))
  }

  /** Only a leg left to an operator takes a verdict by hand, one of the three that settle, and nothing else moves. */
  lemma HandSettledIff(c: Coupon, leg: nat, outcome: LegStatus)
    ensures HandSettled(c, leg, outcome).Some? <==>
      leg < |c.legs| && c.legs[leg].status == LegManual && outcome !in {LegOpen, LegManual, Removed}
    ensures HandSettled(c, leg, outcome).Some? ==>
      var after := HandSettled(c, leg, outcome).value;
      && after.legs[leg].status == outcome && after == c.(legs := after.legs)
      && after.legs == c.legs[leg := after.legs[leg]]
      && after.legs[leg] == c.legs[leg].(status := outcome, log := after.legs[leg].log)
      && after.legs[leg].log == c.legs[leg].log + [LegEvent(LegManual, outcome, ByHand)]
  {
  }

  lemma HandSettlePreservesOk(c: Coupon, leg: nat, outcome: LegStatus)
    requires CouponOk(c) && HandSettled(c, leg, outcome).Some?
    ensures CouponOk(HandSettled(c, leg, outcome).value)
  {
    var after := HandSettled(c, leg, outcome).value;
    var l := after.legs[leg];
    assert l.log[..|l.log| - 1] == c.legs[leg].log;
    SameActiveOdds(c.legs, after.legs);
  }

  /**
    A verdict given by hand survives the next pass exactly when that pass has
    nothing terminal and different to say, or the correction window has closed.
    Otherwise the pass overwrites the operator.
   */
  lemma HandVerdictSurvivesIff(c: Coupon, leg: nat, outcome: LegStatus, results: Results, now: int)
    requires HandSettled(c, leg, outcome).Some?
    ensures var l := HandSettled(c, leg, outcome).value.legs[leg];
      SettledLeg(l, results, now) == l <==>
        || l.fixture !in results
        || !InsideCorrectionWindow(results[l.fixture], now)
        || VerdictFor(l, results[l.fixture], now) in {None, Some(outcome)}
  {
  }

  predicate Decisive(legs: seq<Leg>) {
    legs != [] && Domain.SettleCoupon(Outcomes(legs)) in {Domain.Won, Domain.Lost, Domain.Void}
  }

  predicate SameRow(a: Coupon, b: Coupon) {
    && a.status == b.status && a.stake == b.stake && a.combinedOdd == b.combinedOdd
    && a.moves == b.moves && a.verdicts == b.verdicts
  }

  /** A pass that touches a leg of a coupon in play and leaves its legs decisive. */
  predicate ClosingPass(c: Coupon, results: Results, now: int) {
    SettledLegs(c.legs, results, now) != c.legs && Decisive(SettledLegs(c.legs, results, now))
  }

  /** A coupon in play keeps its row through a pass exactly when the pass touches no leg or leaves them undecided. */
  lemma InPlayRowStaysIff(c: Coupon, results: Results, now: int)
    requires InPlay(c.status) && c.legs != []
    ensures SameRow(SettledCoupon(c, results, now), c) <==> !ClosingPass(c, results, now)
    ensures ClosingPass(c, results, now) ==> Settled(SettledCoupon(c, results, now).status)
  {
  }

  /**
    A coupon whose legs were made decisive by hand disagrees with them and goes
    on disagreeing after a pass exactly when that pass touches none of its legs
    or takes the decision back.
   */
  lemma HandSettledRowStaysIff(c: Coupon, leg: nat, outcome: LegStatus, results: Results, now: int)
    requires CouponOk(c) && InPlay(c.status) && HandSettled(c, leg, outcome).Some?
    requires Decisive(HandSettled(c, leg, outcome).value.legs)
    ensures var hand := HandSettled(c, leg, outcome).value;
      && hand.status == c.status && hand.status != AsStatus(Domain.SettleCoupon(Outcomes(hand.legs)))
      && (SameRow(SettledCoupon(hand, results, now), hand)
          <==> SettledLegs(hand.legs, results, now) == hand.legs || !Decisive(SettledLegs(hand.legs, results, now)))
  {
    InPlayRowStaysIff(HandSettled(c, leg, outcome).value, results, now);
  }

  function Example(status: LegStatus): Coupon {
    Coupon(Sandbox, 1, Open, 2100, None, 1500, 1600, 0, Some(0),
           [Leg(7, Domain.Regulation, 1, 1500, (1, 0), status, [LegEvent(LegOpen, LegManual, Source.Settle)])], [], [])
  }

  lemma ExamplePrice()
    ensures Domain.CombinedOdd([1500]) == Some(1500)
  {
    assert Domain.Product([]) == 1.0 && [1500][..0] == [];
    assert Domain.Product([1500]) == 1.5;
    RoundOfInteger(1500);
  }

  lemma ExampleLegs()
    ensures ActiveOdds(Example(LegManual).legs) == [1500]
    ensures LegOk(Example(LegManual).legs[0])
  {
    var legs := Example(LegManual).legs;
    assert legs[..0] == [] && legs[0].log[..0] == [];
    assert ActiveOdds(legs[..0]) == [];
  }

  lemma ExampleIsOk()
    ensures CouponOk(Example(LegManual))
  {
    ExamplePrice();
    ExampleLegs();
    var c := Example(LegManual);
    assert c.moves + c.verdicts == [];
    assert Replays(Birth(c.mode), [], c.status);
  }

  function NoFinalScore(): Results {
    map[7 := FixtureRow(Domain.FT, Some(0), None, None, true)]
  }

  /**
    Settling the last manual leg by hand leaves the coupon open: only a later
    pass that touches one of its legs refreshes it. And a finished fixture with
    an incomplete score turns the operator's verdict back to manual.
   */
  lemma HandSettleLeavesCouponAndMayBeUndone()
    ensures CouponOk(Example(LegManual))
    ensures var after := HandSettled(Example(LegManual), 0, LegWon).value;
      && after.status == Open && Domain.SettleCoupon(Outcomes(after.legs)) == Domain.Won
      && SettledCoupon(after, map[], 1).status == Open
      && SettledCoupon(after, NoFinalScore(), 1).legs[0].status == LegManual
  {
    ExampleIsOk();
    var after := HandSettled(Example(LegManual), 0, LegWon).value;
    assert Outcomes(after.legs) == [Domain.Won];
    assert SettledLegs(after.legs, map[], 1) == after.legs;
    var back := SettledLeg(after.legs[0], NoFinalScore(), 1);
    assert back.status == LegManual;
    assert SettledLegs(after.legs, NoFinalScore(), 1) == [back];
    assert Outcomes([back]) == [Domain.Manual];
  }
}
