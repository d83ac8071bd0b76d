/**
  What an operator, the clock and a withdrawal can do to a recommendation
  coupon, one coupon at a time, and what every run of such actions and of
  settlement passes keeps.
 */
module RecommendOps {
  import opened Prelude
  import opened Coupons
  import opened Settle
  import Domain

  datatype Error =
    | NotRecommendation | ExpiredError | NotProposed | ClosedError | NotConfirmable
    | StakeError | OddError | EmptyError | NotManual | Missing | Conflict

  /** `commit` keeps an expiry that was written on the way to the refusal. */
  datatype Reply = Done | Below(underFloor: bool) | Refused(error: Error, commit: bool)

  /** The scoreboard row of a fixture. */
  datatype BoardRow = BoardRow(status: Domain.Status, goals: Domain.Pair)

  type Boards = map<int, BoardRow>

  // ------------------------------------------------------------------ pieces

  function Moved(c: Coupon, status: CouponStatus, source: Source): Coupon {
    if c.status == status && status != Proposed then c
    else c.(status := status, moves := c.moves + [CouponEvent(Some(c.status), status, source)])
  }

  function ReleasedLeg(l: Leg): Leg {
    if l.status == LegOpen then l.(status := Removed) else l
  }

  function Released(legs: seq<Leg>): (r: seq<Leg>)
    ensures |r| == |legs|
    ensures forall i :: 0 <= i < |r| ==> r[i] == ReleasedLeg(legs[i])
  {
    seq(|legs|, i requires 0 <= i < |legs| => ReleasedLeg(legs[i]))
  }

  function ExpiredCoupon(c: Coupon, source: Source): Coupon {
    Moved(c.(legs := Released(c.legs)), Expired, source)
  }

  predicate PastTtl(c: Coupon, now: int, ttl: int) { now - c.createdAt >= ttl }

  predicate LegScoreChanged(l: Leg, boards: Boards) {
    l.fixture !in boards || boards[l.fixture].goals.None?
    || Domain.PeriodFor(boards[l.fixture].status) != Some(l.period)
    || boards[l.fixture].goals.value != l.goals
  }

  /** The match no longer looks as it did when the coupon was proposed. */
  predicate ScoreChanged(legs: seq<Leg>, boards: Boards) {
    exists i :: 0 <= i < |legs| && legs[i].status != Removed && LegScoreChanged(legs[i], boards)
  }

  /** What `_live` does first: the coupon afterwards, and the refusal if there is one. */
  function Gate(c: Coupon, now: int, ttl: int): (Coupon, Option<Reply>) {
    if c.mode != Recommendation then (c, Some(Refused(NotRecommendation, false)))
    else if c.status == Expired then (c, Some(Refused(ExpiredError, false)))
    else if PastTtl(c, now, ttl) then
      (if Live(c.status) then ExpiredCoupon(c, Expire) else c, Some(Refused(ExpiredError, true)))
    else (c, None)
  }

  // ----------------------------------------------------------------- actions

  function Accept(c: Coupon, now: int, ttl: int): (Coupon, Reply) {
    var (gated, refusal) := Gate(c, now, ttl);
    if refusal.Some? then (gated, refusal.value)
    else if c.status != Proposed then (c, Refused(NotProposed, false))
    else (Moved(c, Accepted, Operator), Done)
  }

  function Reject(c: Coupon, now: int, ttl: int): (Coupon, Reply) {
    var (gated, refusal) := Gate(c, now, ttl);
    if refusal.Some? then (gated, refusal.value)
    else if !Live(c.status) then (c, Refused(ClosedError, false))
    else (Moved(c.(legs := Released(c.legs)), Rejected, Operator), Done)
  }

  function MarkNotPlaced(c: Coupon): (Coupon, Reply) {
    if c.mode != Recommendation || !Confirmable(c.status) then (c, Refused(NotConfirmable, false))
    else (Moved(c.(legs := Released(c.legs)), NotPlaced, Operator), Done)
  }

  /** A leg that stays on a corrected coupon must be given an odd above 1. */
  predicate BadlyPriced(l: Leg, odds: map<int, int>, remove: set<int>) {
    l.status != Removed && l.fixture !in remove && (l.fixture !in odds || odds[l.fixture] <= 1000)
  }

  function ModifiedLeg(l: Leg, odds: map<int, int>, remove: set<int>): Leg {
    if l.status == Removed then l
    else if l.fixture in remove then l.(status := Removed)
    else if l.fixture in odds then l.(odd := odds[l.fixture])
    else l
  }

  function ModifiedLegs(legs: seq<Leg>, odds: map<int, int>, remove: set<int>): (r: seq<Leg>)
    ensures |r| == |legs|
    ensures forall i :: 0 <= i < |r| ==> r[i] == ModifiedLeg(legs[i], odds, remove)
  {
    seq(|legs|, i requires 0 <= i < |legs| => ModifiedLeg(legs[i], odds, remove))
  }

  predicate AnyBadlyPriced(legs: seq<Leg>, odds: map<int, int>, remove: set<int>) {
    exists i :: 0 <= i < |legs| && BadlyPriced(legs[i], odds, remove)
  }

  /** The row a correction writes. */
  function CorrectedRow(c: Coupon, legs: seq<Leg>, stake: int, price: int): Coupon {
    var proposed := if c.proposedStake.None? then Some(c.stake) else c.proposedStake;
    Moved(c.(legs := legs, stake := stake, proposedStake := proposed, combinedOdd := price), Modified, Operator)
  }

  /** Prices the corrected legs, if any is left, and writes the row. */
  function Repriced(c: Coupon, legs: seq<Leg>, stake: int): (Coupon, Reply) {
    var priced := Domain.CombinedOdd(ActiveOdds(legs));
    if ActiveOdds(legs) == [] || priced.None? then (c, Refused(EmptyError, false))
    else (CorrectedRow(c, legs, stake, priced.value), Below(priced.value < c.floor))
  }

  function Modify(c: Coupon, now: int, ttl: int, stake: int, odds: map<int, int>, remove: set<int>): (Coupon, Reply) {
    if stake <= 0 then (c, Refused(StakeError, false)) else
    var (gated, refusal) := Gate(c, now, ttl);
    if refusal.Some? then (gated, refusal.value)
    else if !Live(c.status) then (c, Refused(ClosedError, false))
    else if AnyBadlyPriced(c.legs, odds, remove) then (c, Refused(OddError, false))
    else Repriced(c, ModifiedLegs(c.legs, odds, remove), stake)
  }

  function Place(c: Coupon, now: int, ttl: int, boards: Boards): (Coupon, Reply) {
    if c.mode != Recommendation then (c, Refused(NotRecommendation, false))
    else if c.status == Expired then (c, Refused(ExpiredError, false))
    else if !Confirmable(c.status) then (c, Refused(NotConfirmable, false))
    else if PastTtl(c, now, ttl) || ScoreChanged(c.legs, boards) then
      (ExpiredCoupon(c, Expire), Refused(ExpiredError, true))
    else (Moved(c.(placedAt := Some(now)), Placed, Operator), Done)
  }

  function ExpireDue(c: Coupon, now: int, ttl: int, boards: Boards): Coupon {
    if c.mode == Recommendation && Live(c.status) && (PastTtl(c, now, ttl) || ScoreChanged(c.legs, boards))
    then ExpiredCoupon(c, Expire) else c
  }

  function Withdrawn(c: Coupon): Coupon {
    if c.mode == Recommendation && Live(c.status) then ExpiredCoupon(c, Withdraw) else c
  }

  datatype Slip = Slip(legs: seq<(int, Domain.Period, int, int, (int, int))>)

  function SlipOdds(s: Slip): (r: seq<int>)
    ensures |r| == |s.legs|
    ensures forall i :: 0 <= i < |r| ==> r[i] == s.legs[i].3
  {
    seq(|s.legs|, i requires 0 <= i < |s.legs| => s.legs[i].3)
  }

  function SlipLegs(s: Slip): (r: seq<Leg>)
    ensures |r| == |s.legs|
    ensures forall i :: 0 <= i < |r| ==> r[i].status == LegOpen && r[i].log == [] && r[i].odd == s.legs[i].3
    ensures forall i :: 0 <= i < |r| ==> r[i].fixture == s.legs[i].0
  {
    seq(|s.legs|, i requires 0 <= i < |s.legs| =>
      Leg(s.legs[i].0, s.legs[i].1, s.legs[i].2, s.legs[i].3, s.legs[i].4, LegOpen, []))
  }

  /** A fresh coupon of either book; None where pricing raises. */
  function Born(mode: Mode, strategy: int, s: Slip, stake: int, floor: int, createdAt: int): Option<Coupon> {
    var odd := Domain.CombinedOdd(SlipOdds(s));
    if odd.None? then None
    else if mode == Sandbox then
      Some(Coupon(Sandbox, strategy, Open, stake, None, odd.value, floor, createdAt, Some(createdAt),
                  SlipLegs(s), [], []))
    else
      Some(Coupon(Recommendation, strategy, Proposed, stake, Some(stake), odd.value, floor, createdAt, None,
                  SlipLegs(s), [CouponEvent(None, Proposed, Operator)], []))
  }

  /** One slip tried on the rows: stored, skipped when a match is taken, None where pricing or storing raises. */
  function Tried(coupons: seq<Coupon>, mode: Mode, strategy: int, s: Slip, stake: int, floor: int,
                 createdAt: int): Option<seq<Coupon>>
  {
    var coupon := Born(mode, strategy, s, stake, floor, createdAt);
    if coupon.None? then None else Entered(coupons, coupon.value)
  }

  // ---------------------------------------------------------- exact conditions

  /** A recommendation the operator still has time to act on. */
  predicate InTime(c: Coupon, now: int, ttl: int) {
    c.mode == Recommendation && c.status != Expired && now < c.createdAt + ttl
  }

  /** The match still stands as the leg was proposed: same period, same goals on both sides. */
  predicate StillAt(l: Leg, boards: Boards) {
    && l.fixture in boards
    && boards[l.fixture].goals == Some(l.goals)
    && boards[l.fixture].status in
       (if l.period == Domain.Regulation then {Domain.H1, Domain.HT, Domain.H2} else {Domain.ET, Domain.BT})
  }

  /** Every leg still on the coupon stands as proposed. */
  predicate AllStillAt(legs: seq<Leg>, boards: Boards) {
    forall i :: 0 <= i < |legs| && legs[i].status != Removed ==> StillAt(legs[i], boards)
  }

  predicate CanBePlaced(c: Coupon, now: int, ttl: int, boards: Boards) {
    InTime(c, now, ttl) && c.status in {Accepted, Modified} && AllStillAt(c.legs, boards)
  }

  lemma ChangedUnlessStillAt(legs: seq<Leg>, boards: Boards)
    ensures ScoreChanged(legs, boards) <==> !AllStillAt(legs, boards)
  {
    forall i | 0 <= i < |legs| ensures LegScoreChanged(legs[i], boards) <==> !StillAt(legs[i], boards) {
    }
    if ScoreChanged(legs, boards) {
      var i :| 0 <= i < |legs| && legs[i].status != Removed && LegScoreChanged(legs[i], boards);
      assert !StillAt(legs[i], boards);
    }
    if !AllStillAt(legs, boards) {
      var i :| 0 <= i < |legs| && legs[i].status != Removed && !StillAt(legs[i], boards);
      assert LegScoreChanged(legs[i], boards);
    }
  }

  /** What a status change writes, and no more. */
  predicate Steps(c: Coupon, after: Coupon, status: CouponStatus, source: Source) {
    && after.status == status
    && after.moves == c.moves + [CouponEvent(Some(c.status), status, source)]
    && after == c.(status := after.status, moves := after.moves, legs := after.legs)
  }

  predicate KeepsLegs(c: Coupon, after: Coupon) { after.legs == c.legs }

  /** A status change writes its event unless the status is repeated; a coupon proposed again is written again. */
  lemma MovedIff(c: Coupon, status: CouponStatus, source: Source)
    ensures if c.status == status && status != Proposed then Moved(c, status, source) == c
            else Steps(c, Moved(c, status, source), status, source) && KeepsLegs(c, Moved(c, status, source))
  {
  }

  /** Open legs are taken off, all others stay as they are. */
  predicate FreesLegs(c: Coupon, after: Coupon) {
    && |after.legs| == |c.legs|
    && forall i :: 0 <= i < |c.legs| ==>
      after.legs[i] == if c.legs[i].status == LegOpen then c.legs[i].(status := Removed) else c.legs[i]
  }

  /** The coupon expired and let go of its matches. */
  predicate Lapses(c: Coupon, after: Coupon, source: Source) {
    c.mode == Recommendation && Live(c.status) && Steps(c, after, Expired, source) && FreesLegs(c, after)
  }

  /** What a refusal leaves: the coupon as it was, or expired when its time ran out. */
  predicate LapsesIfLate(c: Coupon, after: Coupon, now: int, ttl: int) {
    if c.mode == Recommendation && Live(c.status) && now >= c.createdAt + ttl
    then Lapses(c, after, Expire) else after == c
  }

  lemma ExpiryLapses(c: Coupon, source: Source)
    requires c.mode == Recommendation && Live(c.status)
    ensures Lapses(c, ExpiredCoupon(c, source), source)
  {
  }

  lemma GateIsTime(c: Coupon, now: int, ttl: int)
    ensures Gate(c, now, ttl).1.None? <==> InTime(c, now, ttl)
    ensures LapsesIfLate(c, Gate(c, now, ttl).0, now, ttl)
    ensures Gate(c, now, ttl).1.Some? ==> Gate(c, now, ttl).1.value.Refused?
  {
    if c.mode == Recommendation && Live(c.status) { ExpiryLapses(c, Expire); }
  }

  /** A proposal in time can be accepted, and nothing else can. */
  lemma AcceptedIff(c: Coupon, now: int, ttl: int)
    ensures var (after, reply) := Accept(c, now, ttl);
      && (reply == Done <==> InTime(c, now, ttl) && c.status == Proposed)
      && (if reply == Done then Steps(c, after, Accepted, Operator) && KeepsLegs(c, after)
          else LapsesIfLate(c, after, now, ttl))
  {
    GateIsTime(c, now, ttl);
  }

  /** Any live coupon in time can be rejected; it frees its matches. */
  lemma RejectedIff(c: Coupon, now: int, ttl: int)
    ensures var (after, reply) := Reject(c, now, ttl);
      && (reply == Done <==> InTime(c, now, ttl) && c.status in {Proposed, Accepted, Modified})
      && (if reply == Done then Steps(c, after, Rejected, Operator) && FreesLegs(c, after)
          else LapsesIfLate(c, after, now, ttl))
  {
    GateIsTime(c, now, ttl);
  }

  /** Only a coupon that was accepted or corrected can be reported as not placed, however late. */
  lemma NotPlacedIff(c: Coupon)
    ensures var (after, reply) := MarkNotPlaced(c);
      && (reply == Done <==> c.mode == Recommendation && c.status in {Accepted, Modified})
      && (if reply == Done then Steps(c, after, NotPlaced, Operator) && FreesLegs(c, after) else after == c)
  {
  }

  /**
    A coupon is placed exactly when it was accepted or corrected, its time has
    not run out, and every leg still on it stands on the board as proposed;
    otherwise it expires if it was still to be placed.
   */
  lemma PlacedIff(c: Coupon, now: int, ttl: int, boards: Boards)
    ensures var (after, reply) := Place(c, now, ttl, boards);
      && (reply == Done <==> CanBePlaced(c, now, ttl, boards))
      && (if reply == Done then
            Steps(c.(placedAt := Some(now)), after, Placed, Operator) && KeepsLegs(c, after)
          else if c.mode == Recommendation && c.status in {Accepted, Modified} then Lapses(c, after, Expire)
          else after == c)
  {
    ChangedUnlessStillAt(c.legs, boards);
    if c.mode == Recommendation && Live(c.status) { ExpiryLapses(c, Expire); }
  }

  /** The sweep takes exactly the live recommendations whose time is over or whose board moved on. */
  lemma DueIff(c: Coupon, now: int, ttl: int, boards: Boards)
    ensures var after := ExpireDue(c, now, ttl, boards);
      && (after != c <==> c.mode == Recommendation && c.status in {Proposed, Accepted, Modified}
                          && (now >= c.createdAt + ttl || !AllStillAt(c.legs, boards)))
      && (after != c ==> Lapses(c, after, Expire))
  {
    ChangedUnlessStillAt(c.legs, boards);
    if c.mode == Recommendation && Live(c.status) { ExpiryLapses(c, Expire); }
  }

  /** A withdrawal takes exactly the live recommendations. */
  lemma WithdrawnIff(c: Coupon)
    ensures var after := Withdrawn(c);
      && (after != c <==> c.mode == Recommendation && c.status in {Proposed, Accepted, Modified})
      && (after != c ==> Lapses(c, after, Withdraw))
  {
    if c.mode == Recommendation && Live(c.status) { ExpiryLapses(c, Withdraw); }
  }

  /** The leg stays on a corrected coupon. */
  predicate Stays(l: Leg, remove: set<int>) { l.status != Removed && l.fixture !in remove }

  /** A correction that can be made: money, time, an odd above 1 for every leg that stays, and a leg that stays. */
  predicate CanBeModified(c: Coupon, now: int, ttl: int, stake: int, odds: map<int, int>, remove: set<int>) {
    && stake > 0 && InTime(c, now, ttl) && c.status in {Proposed, Accepted, Modified}
    && (forall i :: 0 <= i < |c.legs| && Stays(c.legs[i], remove) ==>
          c.legs[i].fixture in odds && odds[c.legs[i].fixture] > 1000)
    && exists i :: 0 <= i < |c.legs| && Stays(c.legs[i], remove)
  }

  /** The odds an operator gave for the legs that stay. */
  function GivenOdds(legs: seq<Leg>, odds: map<int, int>, remove: set<int>): seq<int>
    requires forall i :: 0 <= i < |legs| && Stays(legs[i], remove) ==> legs[i].fixture in odds
  {
    if legs == [] then []
    else
      var last := legs[|legs| - 1];
      GivenOdds(legs[..|legs| - 1], odds, remove) + if Stays(last, remove) then [odds[last.fixture]] else []
  }

  lemma {:induction false} CorrectedOdds(legs: seq<Leg>, odds: map<int, int>, remove: set<int>)
    requires forall i :: 0 <= i < |legs| && Stays(legs[i], remove) ==> legs[i].fixture in odds
    ensures ActiveOdds(ModifiedLegs(legs, odds, remove)) == GivenOdds(legs, odds, remove)
  {
    if legs != [] {
      var n := |legs| - 1;
      CorrectedOdds(legs[..n], odds, remove);
      assert ModifiedLegs(legs, odds, remove)[..n] == ModifiedLegs(legs[..n], odds, remove);
    }
  }

  lemma {:induction false} GivenOddsPriced(legs: seq<Leg>, odds: map<int, int>, remove: set<int>)
    requires forall i :: 0 <= i < |legs| && Stays(legs[i], remove) ==>
      legs[i].fixture in odds && odds[legs[i].fixture] > 1000
    ensures Domain.PricedAboveOne(GivenOdds(legs, odds, remove))
  {
    if legs != [] { GivenOddsPriced(legs[..|legs| - 1], odds, remove); }
  }

  /** The answer to a correction: the corrected coupon, and whether it is under the floor. */
  predicate AnswersCorrection(c: Coupon, answer: (Coupon, Reply), stake: int, odds: map<int, int>, remove: set<int>)
    requires forall i :: 0 <= i < |c.legs| && Stays(c.legs[i], remove) ==> c.legs[i].fixture in odds
  {
    Corrects(c, answer.0, stake, odds, remove) && answer.1 == Below(answer.0.combinedOdd < c.floor)
  }

  lemma BadlyPricedIff(c: Coupon, odds: map<int, int>, remove: set<int>)
    ensures AnyBadlyPriced(c.legs, odds, remove) <==> !(forall i :: 0 <= i < |c.legs| && Stays(c.legs[i], remove) ==>
      c.legs[i].fixture in odds && odds[c.legs[i].fixture] > 1000)
  {
    if AnyBadlyPriced(c.legs, odds, remove) {
      var i :| 0 <= i < |c.legs| && BadlyPriced(c.legs[i], odds, remove);
      assert Stays(c.legs[i], remove);
    }
  }

  lemma CorrectionPriced(c: Coupon, odds: map<int, int>, remove: set<int>)
    requires !AnyBadlyPriced(c.legs, odds, remove)
    ensures forall i :: 0 <= i < |c.legs| && Stays(c.legs[i], remove) ==> c.legs[i].fixture in odds
    ensures var active := ActiveOdds(ModifiedLegs(c.legs, odds, remove));
      && active == GivenOdds(c.legs, odds, remove)
      && (active != [] <==> exists i :: 0 <= i < |c.legs| && Stays(c.legs[i], remove))
      && (active != [] ==> Domain.CombinedOdd(active).Some?)
  {
    BadlyPricedIff(c, odds, remove);
    CorrectedOdds(c.legs, odds, remove);
    GivenOddsPriced(c.legs, odds, remove);
    var next := ModifiedLegs(c.legs, odds, remove);
    ActiveOddsPresent(next);
    forall i | 0 <= i < |c.legs| ensures next[i].status != Removed <==> Stays(c.legs[i], remove) {
      assert next[i] == ModifiedLeg(c.legs[i], odds, remove);
    }
    if exists i :: 0 <= i < |c.legs| && Stays(c.legs[i], remove) {
      var i :| 0 <= i < |c.legs| && Stays(c.legs[i], remove);
      assert next[i].status != Removed;
    }
  }

  /** The corrected coupon: legs given up are off it, the others carry the given odd, and the first stake is kept. */
  predicate Corrects(c: Coupon, after: Coupon, stake: int, odds: map<int, int>, remove: set<int>)
    requires forall i :: 0 <= i < |c.legs| && Stays(c.legs[i], remove) ==> c.legs[i].fixture in odds
  {
    && after.status == Modified && after.stake == stake
    && after.moves == c.moves + (if c.status == Modified then [] else [CouponEvent(Some(c.status), Modified, Operator)])
    && after == c.(status := Modified, stake := stake, proposedStake := after.proposedStake,
                   combinedOdd := after.combinedOdd, legs := after.legs, moves := after.moves)
    && after.proposedStake == Some(if c.proposedStake.Some? then c.proposedStake.value else c.stake)
    && Domain.CombinedOdd(GivenOdds(c.legs, odds, remove)) == Some(after.combinedOdd)
    && |after.legs| == |c.legs|
    && forall i :: 0 <= i < |c.legs| ==>
      after.legs[i] == if Stays(c.legs[i], remove) then c.legs[i].(odd := odds[c.legs[i].fixture])
                       else c.legs[i].(status := Removed)
  }

  lemma CorrectedLegs(legs: seq<Leg>, odds: map<int, int>, remove: set<int>)
    requires forall i :: 0 <= i < |legs| && Stays(legs[i], remove) ==> legs[i].fixture in odds
    ensures forall i :: 0 <= i < |legs| ==>
      ModifiedLegs(legs, odds, remove)[i]
      == if Stays(legs[i], remove) then legs[i].(odd := odds[legs[i].fixture]) else legs[i].(status := Removed)
  {
    forall i | 0 <= i < |legs|
      ensures ModifiedLeg(legs[i], odds, remove)
        == if Stays(legs[i], remove) then legs[i].(odd := odds[legs[i].fixture]) else legs[i].(status := Removed)
    {
    }
  }

  lemma ModifyReprices(c: Coupon, now: int, ttl: int, stake: int, odds: map<int, int>, remove: set<int>)
    requires CanBeModified(c, now, ttl, stake, odds, remove)
    ensures Modify(c, now, ttl, stake, odds, remove) == Repriced(c, ModifiedLegs(c.legs, odds, remove), stake)
  {
    BadlyPricedIff(c, odds, remove);
  }

  lemma RepricedAt(c: Coupon, legs: seq<Leg>, stake: int, price: int)
    requires ActiveOdds(legs) != [] && Domain.CombinedOdd(ActiveOdds(legs)) == Some(price)
    ensures Repriced(c, legs, stake) == (CorrectedRow(c, legs, stake, price), Below(price < c.floor))
  {
  }

  lemma RowCorrects(c: Coupon, legs: seq<Leg>, stake: int, price: int, odds: map<int, int>, remove: set<int>)
    requires forall i :: 0 <= i < |c.legs| && Stays(c.legs[i], remove) ==> c.legs[i].fixture in odds
    requires Domain.CombinedOdd(GivenOdds(c.legs, odds, remove)) == Some(price)
    requires |legs| == |c.legs| && forall i :: 0 <= i < |legs| ==>
      legs[i] == if Stays(c.legs[i], remove) then c.legs[i].(odd := odds[c.legs[i].fixture])
                 else c.legs[i].(status := Removed)
    ensures AnswersCorrection(c, (CorrectedRow(c, legs, stake, price), Below(price < c.floor)), stake, odds, remove)
  {
  }

  lemma PriceOfCorrection(c: Coupon, odds: map<int, int>, remove: set<int>) returns (price: int)
    requires !AnyBadlyPriced(c.legs, odds, remove) && exists i :: 0 <= i < |c.legs| && Stays(c.legs[i], remove)
    ensures forall i :: 0 <= i < |c.legs| && Stays(c.legs[i], remove) ==> c.legs[i].fixture in odds
    ensures ActiveOdds(ModifiedLegs(c.legs, odds, remove)) != []
    ensures Domain.CombinedOdd(ActiveOdds(ModifiedLegs(c.legs, odds, remove))) == Some(price)
    ensures Domain.CombinedOdd(GivenOdds(c.legs, odds, remove)) == Some(price)
  {
    CorrectionPriced(c, odds, remove);
    price := Domain.CombinedOdd(GivenOdds(c.legs, odds, remove)).value;
  }

  lemma SameAnswer(c: Coupon, a: (Coupon, Reply), b: (Coupon, Reply), stake: int, odds: map<int, int>, remove: set<int>)
    requires forall i :: 0 <= i < |c.legs| && Stays(c.legs[i], remove) ==> c.legs[i].fixture in odds
    requires AnswersCorrection(c, a, stake, odds, remove) && a == b
    ensures AnswersCorrection(c, b, stake, odds, remove)
  {
  }

  lemma RepricedAnswers(c: Coupon, stake: int, odds: map<int, int>, remove: set<int>)
    requires !AnyBadlyPriced(c.legs, odds, remove) && exists i :: 0 <= i < |c.legs| && Stays(c.legs[i], remove)
    ensures forall i :: 0 <= i < |c.legs| && Stays(c.legs[i], remove) ==> c.legs[i].fixture in odds
    ensures AnswersCorrection(c, Repriced(c, ModifiedLegs(c.legs, odds, remove), stake), stake, odds, remove)
  {
    var price := PriceOfCorrection(c, odds, remove);
    CorrectedLegs(c.legs, odds, remove);
    RepricedAt(c, ModifiedLegs(c.legs, odds, remove), stake, price);
    RowCorrects(c, ModifiedLegs(c.legs, odds, remove), stake, price, odds, remove);
    SameAnswer(c, (CorrectedRow(c, ModifiedLegs(c.legs, odds, remove), stake, price), Below(price < c.floor)),
               Repriced(c, ModifiedLegs(c.legs, odds, remove), stake), stake, odds, remove);
  }

  lemma CorrectionCorrects(c: Coupon, now: int, ttl: int, stake: int, odds: map<int, int>, remove: set<int>)
    requires CanBeModified(c, now, ttl, stake, odds, remove)
    ensures AnswersCorrection(c, Modify(c, now, ttl, stake, odds, remove), stake, odds, remove)
  {
    BadlyPricedIff(c, odds, remove);
    RepricedAnswers(c, stake, odds, remove);
    ModifyReprices(c, now, ttl, stake, odds, remove);
    SameAnswer(c, Repriced(c, ModifiedLegs(c.legs, odds, remove), stake), Modify(c, now, ttl, stake, odds, remove),
               stake, odds, remove);
  }

  lemma CorrectionRefused(c: Coupon, now: int, ttl: int, stake: int, odds: map<int, int>, remove: set<int>)
    requires !CanBeModified(c, now, ttl, stake, odds, remove)
    ensures var (after, reply) := Modify(c, now, ttl, stake, odds, remove);
      reply.Refused? && if stake > 0 then LapsesIfLate(c, after, now, ttl) else after == c
  {
    GateIsTime(c, now, ttl);
    BadlyPricedIff(c, odds, remove);
    if !AnyBadlyPriced(c.legs, odds, remove) { CorrectionPriced(c, odds, remove); }
  }

  /** A correction goes through exactly when it can be made, and tells whether the new price is under the floor. */
  lemma ModifiedIff(c: Coupon, now: int, ttl: int, stake: int, odds: map<int, int>, remove: set<int>)
    ensures var answer := Modify(c, now, ttl, stake, odds, remove);
      if CanBeModified(c, now, ttl, stake, odds, remove) then AnswersCorrection(c, answer, stake, odds, remove)
      else answer.1.Refused? && if stake > 0 then LapsesIfLate(c, answer.0, now, ttl) else answer.0 == c
  {
    if CanBeModified(c, now, ttl, stake, odds, remove) {
      CorrectionCorrects(c, now, ttl, stake, odds, remove);
    } else {
      CorrectionRefused(c, now, ttl, stake, odds, remove);
    }
  }

  // -------------------------------------------------------------- preservation

  lemma {:induction false} AllOpenOdds(legs: seq<Leg>, odds: seq<int>)
    requires |legs| == |odds| && forall i :: 0 <= i < |legs| ==> legs[i].status != Removed && legs[i].odd == odds[i]
    ensures ActiveOdds(legs) == odds
  {
    if legs != [] {
      AllOpenOdds(legs[..|legs| - 1], odds[..|odds| - 1]);
    }
  }

  /** A slip becomes a coupon exactly when it has a leg and every odd is above 1: a bet at once, or a proposal. */
  lemma BornIff(mode: Mode, strategy: int, s: Slip, stake: int, floor: int, createdAt: int)
    ensures Born(mode, strategy, s, stake, floor, createdAt).Some?
      <==> s.legs != [] && forall i :: 0 <= i < |s.legs| ==> s.legs[i].3 > 1000
    ensures Born(mode, strategy, s, stake, floor, createdAt).Some? ==>
      var c := Born(mode, strategy, s, stake, floor, createdAt).value;
      && c.mode == mode && c.strategy == strategy && c.stake == stake && c.floor == floor && c.createdAt == createdAt
      && c.status == (if mode == Sandbox then Open else Proposed)
      && c.placedAt == (if mode == Sandbox then Some(createdAt) else None)
      && c.proposedStake == (if mode == Sandbox then None else Some(stake))
      && |c.legs| == |s.legs|
      && forall i :: 0 <= i < |s.legs| ==>
           && (c.legs[i].fixture, c.legs[i].period, c.legs[i].n, c.legs[i].odd, c.legs[i].goals) == s.legs[i]
           && c.legs[i].status == LegOpen && c.legs[i].log == []
  {
    if Born(mode, strategy, s, stake, floor, createdAt).Some? {
      forall i | 0 <= i < |s.legs| ensures s.legs[i].3 > 1000 {
        assert SlipOdds(s)[i] > 1000;
      }
    }
  }

  lemma BornOk(mode: Mode, strategy: int, s: Slip, stake: int, floor: int, createdAt: int)
    requires Born(mode, strategy, s, stake, floor, createdAt).Some?
    ensures CouponOk(Born(mode, strategy, s, stake, floor, createdAt).value)
  {
    AllOpenOdds(SlipLegs(s), SlipOdds(s));
    var c := Born(mode, strategy, s, stake, floor, createdAt).value;
    forall i | 0 <= i < |c.legs| ensures LegOk(c.legs[i]) {
      assert SlipOdds(s)[i] > 1000;
    }
    if mode == Recommendation {
      assert (c.moves + c.verdicts)[..0] == [];
    }
  }

  lemma MovedReplays(c: Coupon, status: CouponStatus, source: Source)
    requires c.verdicts == [] && Replays(Birth(c.mode), c.moves + c.verdicts, c.status)
    ensures var m := Moved(c, status, source);
      Replays(Birth(m.mode), m.moves + m.verdicts, m.status) && m.status == status
  {
    var m := Moved(c, status, source);
    if m != c {
      var all := m.moves + m.verdicts;
      assert all[..|all| - 1] == c.moves + c.verdicts;
    }
  }

  /** Closing a live coupon takes every leg off it. */
  lemma ClosingKeepsOk(c: Coupon, status: CouponStatus, source: Source)
    requires CouponOk(c) && c.mode == Recommendation && Live(c.status) && Closed(status)
    ensures CouponOk(Moved(c.(legs := Released(c.legs)), status, source))
  {
    var released := c.(legs := Released(c.legs));
    forall i | 0 <= i < |c.legs|
      ensures LegOk(released.legs[i]) && released.legs[i].status == Removed
    {
      assert LegOk(c.legs[i]) && c.legs[i].status in {LegOpen, Removed};
    }
    MovedReplays(released, status, source);
  }

  lemma AdvancingKeepsOk(c: Coupon, status: CouponStatus)
    requires CouponOk(c) && c.mode == Recommendation && Live(c.status) && status in {Accepted, Modified, Placed}
    ensures CouponOk(Moved(c, status, Operator))
  {
    MovedReplays(c, status, Operator);
  }

  lemma ModifiedLegsOk(c: Coupon, odds: map<int, int>, remove: set<int>)
    requires CouponOk(c) && Live(c.status) && !AnyBadlyPriced(c.legs, odds, remove)
    ensures forall i :: 0 <= i < |c.legs| ==>
      LegOk(ModifiedLegs(c.legs, odds, remove)[i])
      && ModifiedLegs(c.legs, odds, remove)[i].status in {LegOpen, Removed}
  {
    forall i | 0 <= i < |c.legs|
      ensures LegOk(ModifiedLeg(c.legs[i], odds, remove))
      ensures ModifiedLeg(c.legs[i], odds, remove).status in {LegOpen, Removed}
    {
      assert LegOk(c.legs[i]) && !BadlyPriced(c.legs[i], odds, remove);
    }
  }

  lemma RepricedKeepsOk(c: Coupon, legs: seq<Leg>, stake: int)
    requires CouponOk(c) && c.mode == Recommendation && Live(c.status) && |legs| == |c.legs|
    requires forall i :: 0 <= i < |legs| ==> LegOk(legs[i]) && legs[i].status in {LegOpen, Removed}
    ensures CouponOk(Repriced(c, legs, stake).0)
  {
    var priced := Domain.CombinedOdd(ActiveOdds(legs));
    if ActiveOdds(legs) != [] && priced.Some? {
      var proposed := if c.proposedStake.None? then Some(c.stake) else c.proposedStake;
      var mid := c.(legs := legs, stake := stake, proposedStake := proposed, combinedOdd := priced.value);
      AdvancingKeepsOk(mid, Modified);
    }
  }

  /** A correction leaves the coupon, lets it expire, or prices its corrected legs. */
  lemma ModifyBranches(c: Coupon, now: int, ttl: int, stake: int, odds: map<int, int>, remove: set<int>)
    ensures var after := Modify(c, now, ttl, stake, odds, remove).0;
      || after == c || after == Gate(c, now, ttl).0
      || (c.mode == Recommendation && Live(c.status) && !AnyBadlyPriced(c.legs, odds, remove)
          && after == Repriced(c, ModifiedLegs(c.legs, odds, remove), stake).0)
  {
  }

  lemma ModifyKeepsOk(c: Coupon, now: int, ttl: int, stake: int, odds: map<int, int>, remove: set<int>)
    requires CouponOk(c)
    ensures CouponOk(Modify(c, now, ttl, stake, odds, remove).0)
  {
    var after, gated := Modify(c, now, ttl, stake, odds, remove).0, Gate(c, now, ttl).0;
    ModifyBranches(c, now, ttl, stake, odds, remove);
    GateKeepsOk(c, now, ttl);
    if after == c || after == gated {
      SameCouponOk(if after == c then c else gated, after);
    } else {
      var legs := ModifiedLegs(c.legs, odds, remove);
      ModifiedLegsOk(c, odds, remove);
      RepricedKeepsOk(c, legs, stake);
      SameCouponOk(Repriced(c, legs, stake).0, after);
    }
  }

  /** With every kept leg priced above 1 the only thing that can be missing is a leg. */
  lemma ModifyRefusesOnlyWhenEmpty(c: Coupon, odds: map<int, int>, remove: set<int>)
    requires CouponOk(c) && Live(c.status) && !AnyBadlyPriced(c.legs, odds, remove)
    ensures var active := ActiveOdds(ModifiedLegs(c.legs, odds, remove));
      active != [] ==> Domain.CombinedOdd(active).Some?
  {
    ModifiedLegsOk(c, odds, remove);
    ActiveOddsPriced(ModifiedLegs(c.legs, odds, remove));
  }

  lemma GateKeepsOk(c: Coupon, now: int, ttl: int)
    requires CouponOk(c)
    ensures CouponOk(Gate(c, now, ttl).0)
  {
    if c.mode == Recommendation && Live(c.status) {
      ClosingKeepsOk(c, Expired, Expire);
    }
  }

  // ---------------------------------------------------------------- whole runs

  datatype Action =
    | DoAccept(now: int, ttl: int)
    | DoReject(now: int, ttl: int)
    | DoNotPlaced
    | DoModify(now: int, ttl: int, stake: int, odds: map<int, int>, remove: set<int>)
    | DoPlace(now: int, ttl: int, boards: Boards)
    | DoExpireDue(now: int, ttl: int, boards: Boards)
    | DoWithdraw
    | DoSettle(now: int, results: Results)
    | DoHandSettle(leg: nat, outcome: LegStatus)

  function Act(c: Coupon, a: Action): Coupon {
    match a
    case DoAccept(now, ttl) => Accept(c, now, ttl).0
    case DoReject(now, ttl) => Reject(c, now, ttl).0
    case DoNotPlaced => MarkNotPlaced(c).0
    case DoModify(now, ttl, stake, odds, remove) => Modify(c, now, ttl, stake, odds, remove).0
    case DoPlace(now, ttl, boards) => Place(c, now, ttl, boards).0
    case DoExpireDue(now, ttl, boards) => ExpireDue(c, now, ttl, boards)
    case DoWithdraw => Withdrawn(c)
    case DoSettle(now, results) => SettledCoupon(c, results, now)
    case DoHandSettle(leg, outcome) =>
      var hand := HandSettled(c, leg, outcome);
      if hand.Some? then hand.value else c
  }

  function Life(born: Coupon, actions: seq<Action>): Coupon {
    if actions == [] then born
    else Act(Life(born, actions[..|actions| - 1]), actions[|actions| - 1])
  }

  lemma NotPlacedKeepsOk(c: Coupon)
    requires CouponOk(c)
    ensures CouponOk(MarkNotPlaced(c).0)
  {
    if Confirmable(c.status) && c.mode == Recommendation { ClosingKeepsOk(c, NotPlaced, Operator); }
  }

  lemma ExpiryKeepsOk(c: Coupon, now: int, ttl: int, boards: Boards)
    requires CouponOk(c)
    ensures CouponOk(ExpireDue(c, now, ttl, boards))
  {
    if c.mode == Recommendation && Live(c.status) { ClosingKeepsOk(c, Expired, Expire); }
  }

  lemma WithdrawalKeepsOk(c: Coupon)
    requires CouponOk(c)
    ensures CouponOk(Withdrawn(c))
  {
    if c.mode == Recommendation && Live(c.status) { ClosingKeepsOk(c, Expired, Withdraw); }
  }

  lemma AcceptKeepsOk(c: Coupon, now: int, ttl: int)
    requires CouponOk(c)
    ensures CouponOk(Accept(c, now, ttl).0)
  {
    GateKeepsOk(c, now, ttl);
    if c.mode == Recommendation && Live(c.status) { AdvancingKeepsOk(c, Accepted); }
  }

  lemma RejectKeepsOk(c: Coupon, now: int, ttl: int)
    requires CouponOk(c)
    ensures CouponOk(Reject(c, now, ttl).0)
  {
    GateKeepsOk(c, now, ttl);
    if c.mode == Recommendation && Live(c.status) { ClosingKeepsOk(c, Rejected, Operator); }
  }

  lemma PlacingKeepsOk(c: Coupon, at: int)
    requires CouponOk(c) && c.mode == Recommendation && Live(c.status)
    ensures CouponOk(Moved(c.(placedAt := Some(at)), Placed, Operator))
  {
    assert CouponOk(c.(placedAt := Some(at)));
    AdvancingKeepsOk(c.(placedAt := Some(at)), Placed);
  }

  lemma PlaceKeepsOk(c: Coupon, now: int, ttl: int, boards: Boards)
    requires CouponOk(c)
    ensures CouponOk(Place(c, now, ttl, boards).0)
  {
    if c.mode == Recommendation && Live(c.status) {
      ClosingKeepsOk(c, Expired, Expire);
      PlacingKeepsOk(c, now);
    }
  }

  lemma ClosingActKeepsOk(c: Coupon, a: Action)
    requires CouponOk(c) && (a.DoReject? || a.DoNotPlaced? || a.DoExpireDue? || a.DoWithdraw?)
    ensures CouponOk(Act(c, a))
  {
    match a
    case DoReject(now, ttl) => RejectKeepsOk(c, now, ttl);
    case DoNotPlaced => NotPlacedKeepsOk(c);
    case DoExpireDue(now, ttl, boards) => ExpiryKeepsOk(c, now, ttl, boards);
    case DoWithdraw => WithdrawalKeepsOk(c);
  }

  lemma AdvancingActKeepsOk(c: Coupon, a: Action)
    requires CouponOk(c) && (a.DoAccept? || a.DoModify? || a.DoPlace?)
    ensures CouponOk(Act(c, a))
  {
    match a
    case DoAccept(now, ttl) => AcceptKeepsOk(c, now, ttl);
    case DoModify(now, ttl, stake, odds, remove) => ModifyKeepsOk(c, now, ttl, stake, odds, remove);
    case DoPlace(now, ttl, boards) => PlaceKeepsOk(c, now, ttl, boards);
  }

  lemma PassActKeepsOk(c: Coupon, a: Action)
    requires CouponOk(c) && a.DoSettle?
    ensures CouponOk(Act(c, a))
  {
    SettlePreservesOk(c, a.results, a.now);
    ActIsPass(c, a);
    SameCouponOk(SettledCoupon(c, a.results, a.now), Act(c, a));
  }

  lemma ActIsPass(c: Coupon, a: Action)
    requires a.DoSettle?
    ensures Act(c, a) == SettledCoupon(c, a.results, a.now)
  {
  }

  lemma HandActKeepsOk(c: Coupon, a: Action)
    requires CouponOk(c) && a.DoHandSettle?
    ensures CouponOk(Act(c, a))
  {
    if HandSettled(c, a.leg, a.outcome).Some? { HandSettlePreservesOk(c, a.leg, a.outcome); }
  }

  lemma ActKeepsOk(c: Coupon, a: Action)
    requires CouponOk(c)
    ensures CouponOk(Act(c, a))
  {
    if a.DoSettle? {
      PassActKeepsOk(c, a);
    } else if a.DoHandSettle? {
      HandActKeepsOk(c, a);
    } else if a.DoAccept? || a.DoModify? || a.DoPlace? {
      AdvancingActKeepsOk(c, a);
    } else {
      ClosingActKeepsOk(c, a);
    }
  }

  /** Every coupon of either book, after any run of actions and settlement passes in any order. */
  lemma {:induction false} EveryLifeIsOk(mode: Mode, strategy: int, s: Slip, stake: int, floor: int, createdAt: int,
                                       actions: seq<Action>)
    requires Born(mode, strategy, s, stake, floor, createdAt).Some?
    ensures CouponOk(Life(Born(mode, strategy, s, stake, floor, createdAt).value, actions))
  {
    var born := Born(mode, strategy, s, stake, floor, createdAt).value;
    if actions == [] {
      BornOk(mode, strategy, s, stake, floor, createdAt);
    } else {
      EveryLifeIsOk(mode, strategy, s, stake, floor, createdAt, actions[..|actions| - 1]);
      ActKeepsOk(Life(born, actions[..|actions| - 1]), actions[|actions| - 1]);
    }
  }

  /** Closed coupons stay closed: no action or pass reopens, settles or touches them. */
  lemma {:induction false} ClosedIsFinal(c: Coupon, actions: seq<Action>)
    requires CouponOk(c) && Closed(c.status)
    ensures Life(c, actions) == c
  {
    if actions != [] {
      ClosedIsFinal(c, actions[..|actions| - 1]);
      ClosedIgnores(c, actions[|actions| - 1]);
    }
  }

  lemma ClosedIgnores(c: Coupon, a: Action)
    requires CouponOk(c) && Closed(c.status)
    ensures Act(c, a) == c
  {
  }

  lemma OperatorsNeverSettle(c: Coupon, a: Action)
    requires !a.DoSettle? && !a.DoHandSettle? && Settled(Act(c, a).status)
    ensures Settled(c.status) && Act(c, a) == c
  {
  }

  /** A coupon settles only after it was placed, and once settled no operator action moves it. */
  lemma SettlesOnlyFromPlay(c: Coupon, a: Action)
    requires CouponOk(c) && Settled(Act(c, a).status)
    ensures c.status in {Open, Placed} || Settled(c.status)
    ensures Act(c, a) != c ==> a.DoSettle? || a.DoHandSettle?
    ensures a.DoHandSettle? ==> Act(c, a).status == c.status && Act(c, a).combinedOdd == c.combinedOdd
  {
    if !a.DoSettle? && !a.DoHandSettle? { OperatorsNeverSettle(c, a); }
  }

  // -------------------------------------------------- in play until a pass closes

  predicate Closes(c: Coupon, a: Action) {
    a.DoSettle? && ClosingPass(c, a.results, a.now)
  }

  /** No action of the run is a pass that touches a leg and leaves the legs decisive. */
  ghost predicate NeverCloses(c: Coupon, actions: seq<Action>) {
    if actions == [] then true
    else
      var before := actions[..|actions| - 1];
      NeverCloses(c, before) && !Closes(Life(c, before), actions[|actions| - 1])
  }

  lemma InPlayStepKeepsRowIff(c: Coupon, a: Action)
    requires InPlay(c.status) && c.legs != []
    ensures SameRow(Act(c, a), c) <==> !Closes(c, a)
    ensures Closes(c, a) ==> Settled(Act(c, a).status)
    ensures Act(c, a).legs != []
  {
    if a.DoSettle? { InPlayRowStaysIff(c, a.results, a.now); }
  }

  lemma SettledStaysSettled(c: Coupon, a: Action)
    requires Settled(c.status) && c.legs != []
    ensures Settled(Act(c, a).status) && Act(c, a).legs != []
  {
  }

  /**
    Over every run a coupon in play, settled by hand or not, keeps its row, its
    stake spent, exactly until a pass touches one of its legs and leaves them
    decisive; after that it is settled for good.
   */
  lemma {:induction false} InPlayUntilAPassCloses(c: Coupon, actions: seq<Action>)
    requires InPlay(c.status) && c.legs != []
    ensures SameRow(Life(c, actions), c) <==> NeverCloses(c, actions)
    ensures !NeverCloses(c, actions) ==> Settled(Life(c, actions).status)
    ensures Life(c, actions).legs != []
  {
    if actions != [] {
      var before, last := actions[..|actions| - 1], actions[|actions| - 1];
      InPlayUntilAPassCloses(c, before);
      if NeverCloses(c, before) {
        InPlayStepKeepsRowIff(Life(c, before), last);
      } else {
        SettledStaysSettled(Life(c, before), last);
      }
    }
  }

  /** A last leg settled by hand leaves the coupon where it was through any run that never closes it. */
  lemma HandSettledWaitsForAPass(c: Coupon, leg: nat, outcome: LegStatus, actions: seq<Action>)
    requires CouponOk(c) && InPlay(c.status) && HandSettled(c, leg, outcome).Some?
    ensures var hand := HandSettled(c, leg, outcome).value;
      && (SameRow(Life(hand, actions), c) <==> NeverCloses(hand, actions))
      && (!NeverCloses(hand, actions) ==> Settled(Life(hand, actions).status))
  {
    InPlayUntilAPassCloses(HandSettled(c, leg, outcome).value, actions);
  }

  // --------------------------------------------------------------- held matches

  /** No action but a pass ever takes a match; it can only let go. */
  lemma ActOnlyLetsGo(c: Coupon, a: Action)
    requires !a.DoSettle?
    ensures OnlyLetsGo(c, Act(c, a))
  {
  }
}
