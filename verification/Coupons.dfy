/**
  Coupons, their legs and their audit rows. Rows that refer to a coupon or a
  leg by key are kept with that coupon or leg, in insertion order.
 */
module Coupons {
  import opened Prelude
  import Domain

  datatype Mode = Sandbox | Recommendation

  datatype CouponStatus =
    | Open | Proposed | Accepted | Modified
    | Rejected | Expired | NotPlaced
    | Placed | Won | Lost | Void

  datatype LegStatus = LegOpen | LegWon | LegLost | LegVoid | LegManual | Removed

  datatype Source = Operator | Expire | Withdraw | Settle | Correction | ByHand

  datatype LegEvent = LegEvent(previous: LegStatus, next: LegStatus, source: Source)

  /** A status change of a coupon. `previous` is None for the first one. */
  datatype CouponEvent = CouponEvent(previous: Option<CouponStatus>, next: CouponStatus, source: Source)

  datatype Leg = Leg(
    fixture: int, period: Domain.Period, n: int, odd: int, goals: (int, int), status: LegStatus, log: seq<LegEvent>)

  datatype Coupon = Coupon(
    mode: Mode, strategy: int, status: CouponStatus,
    stake: int, proposedStake: Option<int>, combinedOdd: int, floor: int,
    createdAt: int, placedAt: Option<int>, legs: seq<Leg>,
    moves: seq<CouponEvent>, verdicts: seq<CouponEvent>)

  predicate Live(s: CouponStatus) { s in {Proposed, Accepted, Modified} }

  predicate Confirmable(s: CouponStatus) { s in {Accepted, Modified} }

  predicate Closed(s: CouponStatus) { s in {Rejected, Expired, NotPlaced} }

  predicate Settled(s: CouponStatus) { s in {Won, Lost, Void} }

  /** Odds of the legs that are still on the coupon. */
  function ActiveOdds(legs: seq<Leg>): seq<int> {
    if legs == [] then []
    else
      var last := legs[|legs| - 1];
      ActiveOdds(legs[..|legs| - 1]) + if last.status == Removed then [] else [last.odd]
  }

  // ------------------------------------------------------------- held matches

  /**
    What the partial unique indexes key a leg by while it is open or manual: the
    match alone for a recommendation, the match and the strategy in the sandbox.
   */
  datatype Slot = Slot(strategy: Option<int>, fixture: int)

  function SlotOf(c: Coupon, fixture: int): Slot {
    Slot(if c.mode == Sandbox then Some(c.strategy) else None, fixture)
  }

  predicate Holding(s: LegStatus) { s == LegOpen || s == LegManual }

  predicate HoldsAt(coupons: seq<Coupon>, k: nat, i: nat, slot: Slot) {
    k < |coupons| && i < |coupons[k].legs|
    && Holding(coupons[k].legs[i].status) && SlotOf(coupons[k], coupons[k].legs[i].fixture) == slot
  }

  predicate Taken(coupons: seq<Coupon>, slot: Slot) {
    exists k, i :: 0 <= k < |coupons| && 0 <= i < |coupons[k].legs| && HoldsAt(coupons, k, i, slot)
  }

  /** No match is held twice: what the indexes promise of the stored rows. */
  ghost predicate OneHolder(coupons: seq<Coupon>) {
    forall k: nat, i: nat, l: nat, j: nat, slot ::
      HoldsAt(coupons, k, i, slot) && HoldsAt(coupons, l, j, slot) ==> k == l && i == j
  }

  /** What the database says to a new coupon: its first leg that meets a constraint decides. */
  datatype Fate = Fits | Occupied | Repeats

  predicate Repeated(c: Coupon, i: nat)
    requires i < |c.legs|
  {
    exists j :: 0 <= j < i && c.legs[j].fixture == c.legs[i].fixture
  }

  function FateUpTo(coupons: seq<Coupon>, c: Coupon, n: nat): Fate
    requires n <= |c.legs|
  {
    if n == 0 then Fits
    else
      var before := FateUpTo(coupons, c, n - 1);
      if before != Fits then before
      else if Repeated(c, n - 1) then Repeats
      else if Taken(coupons, SlotOf(c, c.legs[n - 1].fixture)) then Occupied
      else Fits
  }

  /** The legs go in one by one until a constraint stops them. */
  method InsertLegs(coupons: seq<Coupon>, c: Coupon) returns (fate: Fate)
    ensures fate == FateUpTo(coupons, c, |c.legs|)
  {
    fate := Fits;
    for i := 0 to |c.legs|
      invariant fate == FateUpTo(coupons, c, i)
    {
      if fate != Fits { continue; }
      if Repeated(c, i) {
        fate := Repeats;
      } else if Taken(coupons, SlotOf(c, c.legs[i].fixture)) {
        fate := Occupied;
      }
    }
  }

  /** The rows with a new coupon; unchanged when a match is taken, None where the insert raises. */
  function Entered(coupons: seq<Coupon>, c: Coupon): Option<seq<Coupon>> {
    match FateUpTo(coupons, c, |c.legs|)
    case Fits => Some(coupons + [c])
    case Occupied => Some(coupons)
    case Repeats => None
  }

  lemma {:induction false} FitsMeansFree(coupons: seq<Coupon>, c: Coupon, n: nat)
    requires n <= |c.legs| && FateUpTo(coupons, c, n) == Fits
    ensures forall i :: 0 <= i < n ==> !Repeated(c, i) && !Taken(coupons, SlotOf(c, c.legs[i].fixture))
  {
    if n > 0 { FitsMeansFree(coupons, c, n - 1); }
  }

  /** A leg on the match is open or waits for an operator, on a coupon of the book that `c` belongs to. */
  predicate HeldFrom(c: Coupon, other: Coupon, i: nat, fixture: int) {
    && i < |other.legs| && other.legs[i].fixture == fixture && other.legs[i].status in {LegOpen, LegManual}
    && other.mode == c.mode && (c.mode == Sandbox ==> other.strategy == c.strategy)
  }

  /** A match is taken exactly while some coupon of the same book holds it. */
  lemma TakenIff(coupons: seq<Coupon>, c: Coupon, fixture: int)
    ensures Taken(coupons, SlotOf(c, fixture)) <==>
      exists k: nat, i: nat :: k < |coupons| && HeldFrom(c, coupons[k], i, fixture)
  {
    var slot := SlotOf(c, fixture);
    if Taken(coupons, slot) {
      var k: nat, i: nat :| k < |coupons| && i < |coupons[k].legs| && HoldsAt(coupons, k, i, slot);
      assert HeldFrom(c, coupons[k], i, fixture);
    }
    if exists k: nat, i: nat :: k < |coupons| && HeldFrom(c, coupons[k], i, fixture) {
      var k: nat, i: nat :| k < |coupons| && HeldFrom(c, coupons[k], i, fixture);
      assert HoldsAt(coupons, k, i, slot);
    }
  }

  /** The first leg that repeats a match of its coupon or stands on a taken one decides. */
  lemma {:induction false} FateIsTheFirstObstacle(coupons: seq<Coupon>, c: Coupon, i: nat, n: nat)
    requires i < n <= |c.legs|
    requires forall j :: 0 <= j < i ==> !Repeated(c, j) && !Taken(coupons, SlotOf(c, c.legs[j].fixture))
    requires Repeated(c, i) || Taken(coupons, SlotOf(c, c.legs[i].fixture))
    ensures FateUpTo(coupons, c, n) == if Repeated(c, i) then Repeats else Occupied
  {
    if i < n - 1 {
      FateIsTheFirstObstacle(coupons, c, i, n - 1);
    } else {
      NoObstacleFits(coupons, c, i);
    }
  }

  lemma {:induction false} NoObstacleFits(coupons: seq<Coupon>, c: Coupon, n: nat)
    requires n <= |c.legs|
    requires forall j :: 0 <= j < n ==> !Repeated(c, j) && !Taken(coupons, SlotOf(c, c.legs[j].fixture))
    ensures FateUpTo(coupons, c, n) == Fits
  {
    if n > 0 { NoObstacleFits(coupons, c, n - 1); }
  }

  /** A coupon is stored exactly when it names no match twice and none of its matches is taken. */
  lemma StoredIff(coupons: seq<Coupon>, c: Coupon)
    ensures Entered(coupons, c) == Some(coupons + [c]) <==>
      && (forall i, j :: 0 <= i < j < |c.legs| ==> c.legs[i].fixture != c.legs[j].fixture)
      && (forall i :: 0 <= i < |c.legs| ==> !Taken(coupons, SlotOf(c, c.legs[i].fixture)))
  {
    assert coupons != coupons + [c] by { assert |coupons| != |coupons + [c]|; }
    if FateUpTo(coupons, c, |c.legs|) == Fits {
      FittingMatchesDiffer(coupons, c);
    } else if && (forall i, j :: 0 <= i < j < |c.legs| ==> c.legs[i].fixture != c.legs[j].fixture)
              && (forall i :: 0 <= i < |c.legs| ==> !Taken(coupons, SlotOf(c, c.legs[i].fixture))) {
      NoObstacleFits(coupons, c, |c.legs|);
      assert false;
    }
  }

  lemma FittingMatchesDiffer(coupons: seq<Coupon>, c: Coupon)
    requires FateUpTo(coupons, c, |c.legs|) == Fits
    ensures forall i, j :: 0 <= i < j < |c.legs| ==> c.legs[i].fixture != c.legs[j].fixture
    ensures forall i :: 0 <= i < |c.legs| ==> !Taken(coupons, SlotOf(c, c.legs[i].fixture))
  {
    FitsMeansFree(coupons, c, |c.legs|);
    forall i, j | 0 <= i < j < |c.legs| ensures c.legs[i].fixture != c.legs[j].fixture {
      var repeated := Repeated(c, j);
    }
  }

  /** A stored coupon never shares a held match, with another coupon or within itself. */
  lemma EnteredKeepsOneHolder(coupons: seq<Coupon>, c: Coupon)
    requires OneHolder(coupons) && Entered(coupons, c).Some?
    ensures OneHolder(Entered(coupons, c).value)
  {
    if FateUpTo(coupons, c, |c.legs|) == Fits {
      FittingMatchesDiffer(coupons, c);
      var all := coupons + [c];
      forall k: nat, i: nat, l: nat, j: nat, slot | HoldsAt(all, k, i, slot) && HoldsAt(all, l, j, slot)
        ensures k == l && i == j
      {
        if k < |coupons| { assert HoldsAt(coupons, k, i, slot); }
        if l < |coupons| { assert HoldsAt(coupons, l, j, slot); }
      }
    }
  }

  /** After a change that lets legs go of matches but takes none, every match still has one holder. */
  ghost predicate OnlyLetsGo(before: Coupon, after: Coupon) {
    && before.mode == after.mode && before.strategy == after.strategy && |before.legs| == |after.legs|
    && forall i :: 0 <= i < |after.legs| ==>
         after.legs[i].fixture == before.legs[i].fixture
         && (Holding(after.legs[i].status) ==> Holding(before.legs[i].status))
  }

  lemma LettingGoKeepsOneHolder(before: seq<Coupon>, after: seq<Coupon>)
    requires |before| == |after| && OneHolder(before)
    requires forall k :: 0 <= k < |before| ==> OnlyLetsGo(before[k], after[k])
    ensures OneHolder(after)
  {
    forall k: nat, i: nat, l: nat, j: nat, slot | HoldsAt(after, k, i, slot) && HoldsAt(after, l, j, slot)
      ensures k == l && i == j
    {
      assert OnlyLetsGo(before[k], after[k]) && OnlyLetsGo(before[l], after[l]);
      assert HoldsAt(before, k, i, slot) && HoldsAt(before, l, j, slot);
    }
  }

  // ------------------------------------------------------------------ replay

  /** The events lead, one after another, from `start` to `end`. */
  ghost predicate Replays(start: Option<CouponStatus>, events: seq<CouponEvent>, end: CouponStatus) {
    if events == [] then start == Some(end)
    else
      var last := events[|events| - 1];
      && last.next == end
      && (last.previous.Some? ==> Replays(start, events[..|events| - 1], last.previous.value))
      && (last.previous.None? ==> events[..|events| - 1] == [] && start.None?)
  }

  ghost predicate LegReplays(log: seq<LegEvent>, end: LegStatus) {
    if log == [] then end == LegOpen
    else
      var last := log[|log| - 1];
      last.next == end && LegReplays(log[..|log| - 1], last.previous)
  }

  function Birth(m: Mode): Option<CouponStatus> {
    if m == Sandbox then Some(Open) else None
  }

  // --------------------------------------------------------------- invariant

  ghost predicate LegOk(l: Leg) {
    && l.odd > 1000
    && (l.status != Removed ==> LegReplays(l.log, l.status))
    && (l.status in {LegOpen, Removed} ==> l.log == [])
  }

  /** What every coupon satisfies at every moment of its life. */
  ghost predicate CouponOk(c: Coupon) {
    && (forall i :: 0 <= i < |c.legs| ==> LegOk(c.legs[i]))
    && c.legs != []
    // A closed coupon has only removed legs.
    && (Closed(c.status) ==> forall i :: 0 <= i < |c.legs| ==> c.legs[i].status == Removed)
    // A live coupon has only open and removed legs.
    && (Live(c.status) ==> forall i :: 0 <= i < |c.legs| ==> c.legs[i].status in {LegOpen, Removed})
    // Any other coupon keeps a leg.
    && (!Closed(c.status) ==> ActiveOdds(c.legs) != [])
    // Before settlement the coupon is priced by exactly the legs it still has.
    && (Live(c.status) || c.status in {Placed, Open} ==>
          Domain.CombinedOdd(ActiveOdds(c.legs)) == Some(c.combinedOdd))
    // The audit rows tell how the coupon came to its status.
    && Replays(Birth(c.mode), c.moves + c.verdicts, c.status)
    && (!Settled(c.status) ==> c.verdicts == [])
    && (c.mode == Sandbox ==> c.moves == [] && (c.status == Open || Settled(c.status)))
    && (c.mode == Recommendation ==> c.status != Open)
  }

  lemma SameCouponOk(a: Coupon, b: Coupon)
    requires CouponOk(a) && a == b
    ensures CouponOk(b)
  {
  }

  // -------------------------------------------------------------- leg lemmas

  /** Legs that keep their odds and their place keep the coupon's active odds. */
  lemma {:induction false} SameActiveOdds(a: seq<Leg>, b: seq<Leg>)
    requires |a| == |b|
    requires forall i :: 0 <= i < |a| ==> a[i].odd == b[i].odd && (a[i].status == Removed <==> b[i].status == Removed)
    ensures ActiveOdds(a) == ActiveOdds(b)
  {
    if a != [] { SameActiveOdds(a[..|a| - 1], b[..|b| - 1]); }
  }

  lemma {:induction false} ActiveOddsPriced(legs: seq<Leg>)
    requires forall i :: 0 <= i < |legs| && legs[i].status != Removed ==> legs[i].odd > 1000
    ensures Domain.PricedAboveOne(ActiveOdds(legs))
  {
    if legs != [] { ActiveOddsPriced(legs[..|legs| - 1]); }
  }

  lemma {:induction false} ActiveOddsPresent(legs: seq<Leg>)
    ensures ActiveOdds(legs) != [] <==> exists i :: 0 <= i < |legs| && legs[i].status != Removed
  {
    if legs != [] {
      var n := |legs| - 1;
      ActiveOddsPresent(legs[..n]);
      if ActiveOdds(legs[..n]) != [] {
        var i :| 0 <= i < n && legs[..n][i].status != Removed;
        assert legs[i].status != Removed;
      } else if legs[n].status == Removed {
        forall i | 0 <= i < |legs| ensures legs[i].status == Removed {
          if i < n { assert legs[..n][i].status == Removed; }
        }
      }
    }
  }
}
