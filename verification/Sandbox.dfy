/**
  The virtual bankroll of one strategy. Amounts are whole cents; the balance is
  recomputed from the coupons, never stored.
 */
module Sandbox {
  import opened Prelude
  import opened Coupons
  import opened Settle
  import opened RecommendOps
  import Domain

  const BANKROLL := 20000
  const KEEP := 880

  function StakeAfterWins(wins: nat): int { 2100 + 10 * wins }

  datatype Standing = Drafted | InSandbox | Promoted | Paused | Retired

  predicate Active(s: Standing) { s in {InSandbox, Promoted} }

  // ------------------------------------------------------------------ balance

  /** What a coupon row has done to the bankroll so far. */
  function RowEffect(status: CouponStatus, stake: int, odd: int): int {
    match status
    case Open => -stake
    case Won => Domain.SettledPnl(stake, odd, Domain.Won, KEEP).value
    case Lost => -stake
    case _ => 0
  }

  function Effect(c: Coupon): int { RowEffect(c.status, c.stake, c.combinedOdd) }

  function TotalEffect(book: seq<Coupon>): int {
    if book == [] then 0 else TotalEffect(book[..|book| - 1]) + Effect(book[|book| - 1])
  }

  function Balance(book: seq<Coupon>): int { BANKROLL + TotalEffect(book) }

  function Wins(book: seq<Coupon>): nat {
    if book == [] then 0 else Wins(book[..|book| - 1]) + if book[|book| - 1].status == Won then 1 else 0
  }

  /**
    What each row has done to the bankroll: an open or lost coupon took its
    stake, a won one nets what it keeps of stake times odd at 88 percent, to the
    nearest cent, and any other took nothing.
   */
  lemma RowEffectExactly(c: Coupon)
    ensures c.status in {Open, Lost} ==> Effect(c) == -c.stake
    ensures c.status == Won ==>
      -500_000 <= 1_000_000 * (Effect(c) + c.stake) - c.stake * c.combinedOdd * 880 <= 500_000
    ensures c.status !in {Open, Lost, Won} ==> Effect(c) == 0
  {
    Domain.WonPaysTheKeptShare(c.stake, c.combinedOdd, KEEP);
  }

  method PortfolioBalance(book: seq<Coupon>) returns (balance: int)
    ensures balance == Balance(book)
  {
    balance := BANKROLL;
    for i := 0 to |book|
      invariant balance == Balance(book[..i])
    {
      assert book[..i + 1][..i] == book[..i];
      var c := book[i];
      if c.status == Open {
        balance := balance - c.stake;
      } else if c.status == Won {
        balance := balance + Domain.SettledPnl(c.stake, c.combinedOdd, Domain.Won, KEEP).value;
      } else if c.status == Lost {
        balance := balance - c.stake;
      }
    }
    assert book[..|book|] == book;
  }

  method WonCount(book: seq<Coupon>) returns (wins: nat)
    ensures wins == Wins(book)
  {
    wins := 0;
    for i := 0 to |book|
      invariant wins == Wins(book[..i])
    {
      assert book[..i + 1][..i] == book[..i];
      if book[i].status == Won { wins := wins + 1; }
    }
    assert book[..|book|] == book;
  }

  /** The next stake and the balance both come from the same rows. */
  function NextStake(book: seq<Coupon>): int { StakeAfterWins(Wins(book)) }

  predicate Covers(book: seq<Coupon>) { Balance(book) >= NextStake(book) }

  function WonRows(book: seq<Coupon>): set<nat> {
    set i: nat | i < |book| && book[i].status == Won
  }

  /** The stake starts at 21.00 and grows by ten cents with every coupon that stands as won. */
  lemma {:induction false} StakeGrowsWithWins(book: seq<Coupon>)
    ensures Wins(book) == |WonRows(book)|
    ensures NextStake(book) == 2100 + 10 * |WonRows(book)|
  {
    if book == [] {
      assert WonRows(book) == {};
    } else {
      var n := |book| - 1;
      StakeGrowsWithWins(book[..n]);
      var last: set<nat> := if book[n].status == Won then {n} else {};
      assert WonRows(book) == WonRows(book[..n]) + last;
    }
  }

  // ---------------------------------------------------------------- placement

  /** Whose coupons these are, and when they are placed. */
  datatype Stamp = Stamp(strategy: int, at: int)

  function NewCoupon(s: Slip, stake: int, stamp: Stamp): Option<Coupon> {
    Born(Mode.Sandbox, stamp.strategy, s, stake, 0, stamp.at)
  }

  /** One turn of the loop while the money lasts; None where pricing or storing the slip raises. */
  function Inserted(book: seq<Coupon>, s: Slip, stake: int, stamp: Stamp): Option<seq<Coupon>> {
    Tried(book, Mode.Sandbox, stamp.strategy, s, stake, 0, stamp.at)
  }

  /** The book after the slips were tried in turn, each only if the balance still covers the stake. */
  function Placements(book: seq<Coupon>, slips: seq<Slip>, stake: int, stamp: Stamp): Option<seq<Coupon>> {
    if slips == [] then Some(book)
    else
      var before := Placements(book, slips[..|slips| - 1], stake, stamp);
      if before.None? || Balance(before.value) < stake then before
      else Inserted(before.value, slips[|slips| - 1], stake, stamp)
  }

  /** The same with no limit on money. */
  function PlacementsFreely(book: seq<Coupon>, slips: seq<Slip>, stake: int, stamp: Stamp): Option<seq<Coupon>> {
    if slips == [] then Some(book)
    else
      var before := PlacementsFreely(book, slips[..|slips| - 1], stake, stamp);
      if before.None? then None else Inserted(before.value, slips[|slips| - 1], stake, stamp)
  }

  datatype Desk = Desk(standing: Standing, book: seq<Coupon>)

  /** `place_sandbox_coupons`; None when it raises and the transaction is undone. */
  function Delivered(d: Desk, slips: seq<Slip>, stamp: Stamp): Option<Desk> {
    if !Active(d.standing) || slips == [] then Some(d)
    else
      var stake := NextStake(d.book);
      var placed := Placements(d.book, slips, stake, stamp);
      if placed.None? then None
      else Some(Desk(if Balance(placed.value) < stake then Paused else d.standing, placed.value))
  }

  function Funded(d: Desk): Desk {
    if d.standing == Paused && Covers(d.book) then d.(standing := InSandbox) else d
  }

  /** Only a strategy in the sandbox or promoted is given coupons. */
  lemma InactiveBuysNothing(d: Desk, slips: seq<Slip>, stamp: Stamp)
    requires d.standing !in {InSandbox, Promoted}
    ensures Delivered(d, slips, stamp) == Some(d)
  {
  }

  /** A release concerns paused strategies alone, and returns exactly those whose book covers the next stake. */
  lemma ReleasedIff(d: Desk)
    ensures Funded(d).book == d.book
    ensures Funded(d).standing == if d.standing == Paused && Balance(d.book) >= 2100 + 10 * |WonRows(d.book)|
                                  then InSandbox else d.standing
  {
    StakeGrowsWithWins(d.book);
  }

  // -------------------------------------------------------------- placement laws

  /** The price of `n` coupons. */
  function Cost(stake: int, n: nat): int {
    if n == 0 then 0 else Cost(stake, n - 1) + stake
  }

  /** Only coupons at this stake were added, none of them settled. */
  predicate Bought(book: seq<Coupon>, after: seq<Coupon>, stake: int) {
    && book <= after
    && Balance(after) == Balance(book) - Cost(stake, |after| - |book|)
    && Wins(after) == Wins(book)
  }

  lemma InsertedBalance(book: seq<Coupon>, s: Slip, stake: int, stamp: Stamp)
    requires Inserted(book, s, stake, stamp).Some?
    ensures var after := Inserted(book, s, stake, stamp).value;
      && book <= after
      && (after == book
          || (|after| == |book| + 1 && Balance(after) == Balance(book) - stake && Wins(after) == Wins(book)))
  {
    var after := Inserted(book, s, stake, stamp).value;
    if after != book { assert after[..|book|] == book; }
  }

  lemma InsertedIsBought(book: seq<Coupon>, before: seq<Coupon>, s: Slip, stake: int, stamp: Stamp)
    requires Bought(book, before, stake) && Inserted(before, s, stake, stamp).Some?
    ensures Bought(book, Inserted(before, s, stake, stamp).value, stake)
  {
    InsertedBalance(before, s, stake, stamp);
  }

  /** The balance the loop keeps by subtraction is the balance of the rows; wins do not change. */
  lemma {:induction false} PlacementsAreBought(book: seq<Coupon>, slips: seq<Slip>, stake: int, stamp: Stamp)
    requires Placements(book, slips, stake, stamp).Some?
    ensures Bought(book, Placements(book, slips, stake, stamp).value, stake)
  {
    if slips != [] {
      var n := |slips| - 1;
      PlacementsAreBought(book, slips[..n], stake, stamp);
      var before := Placements(book, slips[..n], stake, stamp).value;
      if Balance(before) >= stake { InsertedIsBought(book, before, slips[n], stake, stamp); }
    }
  }

  /** How many stakes a balance covers. */
  function Affordable(balance: int, stake: int): nat
    requires stake > 0
    decreases Max(0, balance)
  {
    if balance < stake then 0 else 1 + Affordable(balance - stake, stake)
  }

  /** The rows of `free` up to `q` beyond the first `base`. */
  function Cut(free: seq<Coupon>, base: nat, q: nat): seq<Coupon>
    requires base <= |free|
  {
    free[..base + Min(|free| - base, q)]
  }

  lemma CutGrows(free: seq<Coupon>, next: seq<Coupon>, base: nat, q: nat)
    requires base <= |free| && free <= next && |next| <= |free| + 1
    ensures |Cut(free, base, q)| - base < q ==> Cut(free, base, q) == free && Cut(next, base, q) == next
    ensures |Cut(free, base, q)| - base >= q ==> Cut(next, base, q) == Cut(free, base, q)
    ensures |Cut(free, base, q)| >= base
  {
  }

  predicate CutAtBalance(book: seq<Coupon>, slips: seq<Slip>, stake: int, stamp: Stamp)
    requires stake > 0 && PlacementsFreely(book, slips, stake, stamp).Some?
  {
    var free := PlacementsFreely(book, slips, stake, stamp).value;
    && book <= free
    && Placements(book, slips, stake, stamp) == Some(Cut(free, |book|, Affordable(Balance(book), stake)))
  }

  /** Money never changes which slips are taken, only how many: the book is cut where the balance runs out. */
  lemma {:induction false} MoneyOnlyTruncates(book: seq<Coupon>, slips: seq<Slip>, stake: int, stamp: Stamp)
    requires stake > 0 && PlacementsFreely(book, slips, stake, stamp).Some?
    ensures var free := PlacementsFreely(book, slips, stake, stamp).value;
      && book <= free
      && Placements(book, slips, stake, stamp) == Some(Cut(free, |book|, Affordable(Balance(book), stake)))
  {
    if slips == [] {
      assert Cut(book, |book|, Affordable(Balance(book), stake)) == book;
    } else {
      var n := |slips| - 1;
      MoneyOnlyTruncates(book, slips[..n], stake, stamp);
      MoneyStep(book, slips[..n], slips[n], stake, stamp);
      assert slips == slips[..n] + [slips[n]];
    }
  }

  lemma MoneyStep(book: seq<Coupon>, slips: seq<Slip>, s: Slip, stake: int, stamp: Stamp)
    requires stake > 0 && PlacementsFreely(book, slips, stake, stamp).Some? && CutAtBalance(book, slips, stake, stamp)
    requires PlacementsFreely(book, slips + [s], stake, stamp).Some?
    ensures CutAtBalance(book, slips + [s], stake, stamp)
  {
    assert (slips + [s])[..|slips|] == slips;
    var free := PlacementsFreely(book, slips, stake, stamp).value;
    var q := Affordable(Balance(book), stake);
    AffordsAnotherIff(book, slips, stake, stamp);
    InsertedBalance(free, s, stake, stamp);
    CutGrows(free, Inserted(free, s, stake, stamp).value, |book|, q);
  }

  /** A slip that raises undoes the placement exactly when the money reaches it; before that the book is cut as ever. */
  lemma RaisesIffMoneyReachesIt(book: seq<Coupon>, slips: seq<Slip>, i: nat, stake: int, stamp: Stamp)
    requires stake > 0 && i < |slips| && PlacementsFreely(book, slips[..i], stake, stamp).Some?
    requires Inserted(PlacementsFreely(book, slips[..i], stake, stamp).value, slips[i], stake, stamp).None?
    ensures var free := PlacementsFreely(book, slips[..i], stake, stamp).value;
      var q := Affordable(Balance(book), stake);
      && book <= free
      && Placements(book, slips, stake, stamp) == if |free| - |book| < q then None else Some(Cut(free, |book|, q))
  {
    var free := PlacementsFreely(book, slips[..i], stake, stamp).value;
    MoneyOnlyTruncates(book, slips[..i], stake, stamp);
    AffordsAnotherIff(book, slips[..i], stake, stamp);
    if |free| - |book| < Affordable(Balance(book), stake) {
      assert Cut(free, |book|, Affordable(Balance(book), stake)) == free;
      PlacementsNext(book, slips, i, stake, stamp);
    } else {
      PlacementsStop(book, slips, i, stake, stamp);
    }
  }

  /** The loop goes on exactly while fewer coupons were bought than the opening balance affords. */
  lemma AffordsAnotherIff(book: seq<Coupon>, slips: seq<Slip>, stake: int, stamp: Stamp)
    requires stake > 0 && Placements(book, slips, stake, stamp).Some?
    ensures var after := Placements(book, slips, stake, stamp).value;
      && |book| <= |after|
      && (Balance(after) >= stake <==> |after| - |book| < Affordable(Balance(book), stake))
  {
    PlacementsAreBought(book, slips, stake, stamp);
    CoversOneMoreIff(Balance(book), stake, |Placements(book, slips, stake, stamp).value| - |book|);
  }

  /** After `k` stakes another is covered exactly when `k` is less than the balance affords. */
  lemma {:induction false} CoversOneMoreIff(balance: int, stake: int, k: nat)
    requires stake > 0
    ensures Cost(stake, k) >= 0
    ensures balance - Cost(stake, k) >= stake <==> k < Affordable(balance, stake)
    decreases k
  {
    if k > 0 { CoversOneMoreIff(balance - stake, stake, k - 1); }
  }

  /** A placement never takes the balance below zero. */
  lemma {:induction false} PlacementStaysSolvent(book: seq<Coupon>, slips: seq<Slip>, stake: int, stamp: Stamp)
    requires stake > 0 && Balance(book) >= 0 && Placements(book, slips, stake, stamp).Some?
    ensures Balance(Placements(book, slips, stake, stamp).value) >= 0
  {
    if slips != [] {
      var n := |slips| - 1;
      PlacementStaysSolvent(book, slips[..n], stake, stamp);
      var before := Placements(book, slips[..n], stake, stamp).value;
      if Balance(before) >= stake { InsertedBalance(before, slips[n], stake, stamp); }
    }
  }

  /** A strategy that was given slips and is still active afterwards covers its next stake; else it is paused. */
  lemma ActiveAfterDeliveryCovers(d: Desk, slips: seq<Slip>, stamp: Stamp)
    requires Active(d.standing) && slips != [] && Delivered(d, slips, stamp).Some?
    ensures var after := Delivered(d, slips, stamp).value;
      && (Active(after.standing) <==> Covers(after.book))
      && (!Active(after.standing) ==> after.standing == Paused)
      && NextStake(after.book) == NextStake(d.book)
  {
    PlacementsAreBought(d.book, slips, NextStake(d.book), stamp);
  }

  // ------------------------------------------------------------- settlement laws

  predicate RowOk(c: Coupon) {
    c.stake > 0 && c.combinedOdd > 1000 && (c.status == Open || Settled(c.status))
  }

  predicate BookOk(book: seq<Coupon>) {
    forall i :: 0 <= i < |book| ==> RowOk(book[i])
  }

  lemma PassKeepsRowOk(c: Coupon, results: Results, now: int)
    requires RowOk(c)
    ensures RowOk(SettledCoupon(c, results, now)) && SettledCoupon(c, results, now).stake == c.stake
  {
    if Settleable(c.status) {
      var odds := WonOdds(SettledLegs(c.legs, results, now));
      if Domain.CombinedOdd(odds).Some? { Domain.CombinedAboveOne(odds); }
    }
  }

  lemma PassKeepsBookOk(book: seq<Coupon>, results: Results, now: int)
    requires BookOk(book)
    ensures BookOk(WholePass(book, results, now))
  {
    forall i | 0 <= i < |book| ensures RowOk(WholePass(book, results, now)[i]) {
      PassKeepsRowOk(book[i], results, now);
    }
  }

  /** What a pass does to the bankroll through one coupon. */
  function Shift(c: Coupon, results: Results, now: int): int {
    Effect(SettledCoupon(c, results, now)) - Effect(c)
  }

  function Gains(book: seq<Coupon>, results: Results, now: int): nat {
    if book == [] then 0
    else Gains(book[..|book| - 1], results, now) + Max(0, Shift(book[|book| - 1], results, now))
  }

  function Losses(book: seq<Coupon>, results: Results, now: int): nat {
    if book == [] then 0
    else Losses(book[..|book| - 1], results, now) + Max(0, -Shift(book[|book| - 1], results, now))
  }

  lemma OneMoreEffect(book: seq<Coupon>, c: Coupon)
    ensures TotalEffect(book + [c]) == TotalEffect(book) + Effect(c)
  {
    assert (book + [c])[..|book|] == book;
  }

  /** A pass moves the balance by exactly what its coupons gain and lose. */
  lemma {:induction false} PassMovesBalance(book: seq<Coupon>, results: Results, now: int)
    ensures Balance(WholePass(book, results, now))
      == Balance(book) + Gains(book, results, now) - Losses(book, results, now)
  {
    if book != [] {
      var n := |book| - 1;
      PassMovesBalance(book[..n], results, now);
      assert WholePass(book, results, now)
        == WholePass(book[..n], results, now) + [SettledCoupon(book[n], results, now)];
      OneMoreEffect(WholePass(book[..n], results, now), SettledCoupon(book[n], results, now));
    }
  }

  /** A pass overdraws the book exactly when its losses are more than the balance and its gains. */
  lemma CorrectionOverdrawsIff(book: seq<Coupon>, results: Results, now: int)
    ensures Balance(WholePass(book, results, now)) < 0
      <==> Balance(book) + Gains(book, results, now) < Losses(book, results, now)
  {
    PassMovesBalance(book, results, now);
  }

  /** What the coupon nets as a won one. */
  function WinNet(c: Coupon): int { RowEffect(Won, c.stake, c.combinedOdd) }

  lemma WinKeepsPartOfStake(c: Coupon)
    requires RowOk(c)
    ensures WinNet(c) > -c.stake
  {
    var staked, odd := c.stake as real, c.combinedOdd as real / 1000.0;
    assert staked * odd >= 1.0 by { AtLeastOne(staked, odd); }
    var paid := staked * odd * (KEEP as real / 1000.0);
    assert paid >= 0.88;
    RoundMonotone((1 - c.stake) as real - 0.12, paid - staked);
    RoundedUp(1 - c.stake);
  }

  lemma AtLeastOne(x: real, y: real)
    requires x >= 1.0 && y >= 1.0
    ensures x * y >= 1.0
  {
  }

  lemma RoundedUp(n: int)
    ensures RoundHalfUp(n as real - 0.12) == n
  {
  }

  /** A settled coupon is corrected to something that leaves less in the bankroll. */
  predicate LosingCorrection(c: Coupon, after: Coupon) {
    || (c.status == Won && after.status == Lost)
    || (c.status == Won && after.status == Void && WinNet(c) > 0)
    || (c.status == Won && after.status == Won && WinNet(after) < WinNet(c))
    || (c.status == Void && after.status == Lost)
    || (c.status == Void && after.status == Won && WinNet(after) < 0)
  }

  /** The only ways a pass can lose money: never on an open or lost coupon, so never at first settlement. */
  lemma LosesMoneyIff(c: Coupon, results: Results, now: int)
    requires RowOk(c)
    ensures Shift(c, results, now) < 0 <==> LosingCorrection(c, SettledCoupon(c, results, now))
  {
    PassKeepsRowOk(c, results, now);
    WinKeepsPartOfStake(c);
    WinKeepsPartOfStake(SettledCoupon(c, results, now));
  }

  /** A coupon has taken its whole stake when it opens, so settling it can only give back. */
  lemma FirstSettlementNeverCosts(c: Coupon, results: Results, now: int)
    requires RowOk(c) && c.status == Open
    ensures Effect(SettledCoupon(c, results, now)) >= Effect(c)
  {
    LosesMoneyIff(c, results, now);
  }

  /** No coupon of the pass is corrected to something worth less. */
  ghost predicate NothingLost(book: seq<Coupon>, results: Results, now: int) {
    forall i :: 0 <= i < |book| ==> !LosingCorrection(book[i], SettledCoupon(book[i], results, now))
  }

  lemma {:induction false} NoLosses(book: seq<Coupon>, results: Results, now: int)
    requires BookOk(book) && NothingLost(book, results, now)
    ensures Losses(book, results, now) == 0
  {
    if book != [] {
      var n := |book| - 1;
      NoLosses(book[..n], results, now);
      LosesMoneyIff(book[n], results, now);
    }
  }

  /** A pass without a losing correction never lowers the balance. */
  lemma PassNeverCosts(book: seq<Coupon>, results: Results, now: int)
    requires BookOk(book) && NothingLost(book, results, now)
    ensures Balance(WholePass(book, results, now)) >= Balance(book)
  {
    NoLosses(book, results, now);
    PassMovesBalance(book, results, now);
  }

  /** A coupon settled by hand keeps its stake spent through every run that never closes it. */
  lemma HandSettledKeepsStakeSpent(c: Coupon, leg: nat, outcome: LegStatus, actions: seq<Action>)
    requires CouponOk(c) && c.status == Open && HandSettled(c, leg, outcome).Some?
    requires NeverCloses(HandSettled(c, leg, outcome).value, actions)
    ensures Effect(Life(HandSettled(c, leg, outcome).value, actions)) == -c.stake
  {
    HandSettledWaitsForAPass(c, leg, outcome, actions);
  }

  // ------------------------------------------------------------------ whole runs

  /** A pass that is rolled back is no event. */
  datatype Event =
    | Deliver(slips: seq<Slip>, stamp: Stamp)
    | Release
    | SettleAll(results: Results, now: int)
    | Decide(coupon: nat, leg: nat, outcome: LegStatus)
    | SetStanding(standing: Standing)

  function Next(d: Desk, e: Event): Desk {
    match e
    case Deliver(slips, stamp) =>
      var after := Delivered(d, slips, stamp);
      if after.Some? then after.value else d
    case Release => Funded(d)
    case SettleAll(results, now) => d.(book := WholePass(d.book, results, now))
    case Decide(coupon, leg, outcome) =>
      if coupon >= |d.book| then d
      else
        var hand := HandSettled(d.book[coupon], leg, outcome);
        if hand.None? then d else d.(book := d.book[coupon := hand.value])
    case SetStanding(standing) => d.(standing := standing)
  }

  function Run(events: seq<Event>): Desk {
    if events == [] then Desk(InSandbox, []) else Next(Run(events[..|events| - 1]), events[|events| - 1])
  }

  lemma {:induction false} PlacementsBookOk(book: seq<Coupon>, slips: seq<Slip>, stake: int, stamp: Stamp)
    requires stake > 0 && BookOk(book) && Placements(book, slips, stake, stamp).Some?
    ensures BookOk(Placements(book, slips, stake, stamp).value)
  {
    if slips != [] {
      var n := |slips| - 1;
      PlacementsBookOk(book, slips[..n], stake, stamp);
      if NewCoupon(slips[n], stake, stamp).Some? { Domain.CombinedAboveOne(SlipOdds(slips[n])); }
    }
  }

  lemma EventKeepsBookOk(d: Desk, e: Event)
    requires BookOk(d.book)
    ensures BookOk(Next(d, e).book)
  {
    match e
    case Deliver(slips, stamp) =>
      var stake := NextStake(d.book);
      if Placements(d.book, slips, stake, stamp).Some? { PlacementsBookOk(d.book, slips, stake, stamp); }
    case SettleAll(results, now) => PassKeepsBookOk(d.book, results, now);
    case _ =>
  }

  lemma {:induction false} EveryRunIsOk(events: seq<Event>)
    ensures BookOk(Run(events).book)
  {
    if events != [] {
      EveryRunIsOk(events[..|events| - 1]);
      EventKeepsBookOk(Run(events[..|events| - 1]), events[|events| - 1]);
    }
  }

  lemma DecisionKeepsBalance(d: Desk, coupon: nat, leg: nat, outcome: LegStatus)
    ensures Balance(Next(d, Decide(coupon, leg, outcome)).book) == Balance(d.book)
  {
    var after := Next(d, Decide(coupon, leg, outcome)).book;
    if after != d.book { TotalAfterUpdate(d.book, coupon, after[coupon]); }
  }

  /** Nothing but a pass can take a balance that covers zero below it. */
  lemma OnlyPassesOverdraw(d: Desk, e: Event)
    requires Balance(d.book) >= 0 && !e.SettleAll?
    ensures Balance(Next(d, e).book) >= 0
  {
    match e
    case Deliver(slips, stamp) =>
      var stake := NextStake(d.book);
      if Placements(d.book, slips, stake, stamp).Some? { PlacementStaysSolvent(d.book, slips, stake, stamp); }
    case Decide(coupon, leg, outcome) => DecisionKeepsBalance(d, coupon, leg, outcome);
    case _ =>
  }

  /** The losses of a pass are covered by the balance it finds and its own gains. */
  predicate Covered(d: Desk, e: Event) {
    e.SettleAll? ==> Losses(d.book, e.results, e.now) <= Balance(d.book) + Gains(d.book, e.results, e.now)
  }

  ghost predicate CoveredThroughout(events: seq<Event>) {
    if events == [] then true
    else CoveredThroughout(events[..|events| - 1]) && Covered(Run(events[..|events| - 1]), events[|events| - 1])
  }

  ghost predicate SolventThroughout(events: seq<Event>) {
    if events == [] then true
    else SolventThroughout(events[..|events| - 1]) && Balance(Run(events).book) >= 0
  }

  lemma {:induction false} StartsSolvent(events: seq<Event>)
    requires SolventThroughout(events)
    ensures Balance(Run(events).book) >= 0
  {
  }

  /**
    Whatever is placed, released, decided by hand, settled and corrected, the
    balance never goes negative at any moment of a run exactly when every pass
    of it covers what its corrections take back.
   */
  lemma {:induction false} SolventIffCovered(events: seq<Event>)
    ensures SolventThroughout(events) <==> CoveredThroughout(events)
  {
    if events != [] {
      var before, e := events[..|events| - 1], events[|events| - 1];
      SolventIffCovered(before);
      if SolventThroughout(before) {
        StartsSolvent(before);
        var d := Run(before);
        if e.SettleAll? { PassMovesBalance(d.book, e.results, e.now); } else { OnlyPassesOverdraw(d, e); }
      }
    }
  }

  /** No pass of the run makes a losing correction. First settlements and corrections that pay are free. */
  ghost predicate NeverLosesACorrection(events: seq<Event>) {
    if events == [] then true
    else
      var e := events[|events| - 1];
      && NeverLosesACorrection(events[..|events| - 1])
      && (e.SettleAll? ==> NothingLost(Run(events[..|events| - 1]).book, e.results, e.now))
  }

  /** Any run of placements, first settlements and corrections that pay stays solvent. */
  lemma {:induction false} EveryRunIsSolvent(events: seq<Event>)
    requires NeverLosesACorrection(events)
    ensures SolventThroughout(events) && Balance(Run(events).book) >= 0
  {
    if events != [] {
      var before, e := events[..|events| - 1], events[|events| - 1];
      EveryRunIsSolvent(before);
      EveryRunIsOk(before);
      var d := Run(before);
      if e.SettleAll? { PassNeverCosts(d.book, e.results, e.now); } else { OnlyPassesOverdraw(d, e); }
    }
  }

  // ---------------------------------------------------------- a run that overdraws

  lemma {:induction false} TotalAfterUpdate(book: seq<Coupon>, i: nat, c: Coupon)
    requires i < |book|
    ensures TotalEffect(book[i := c]) == TotalEffect(book) - Effect(book[i]) + Effect(c)
  {
    var n := |book| - 1;
    if i == n {
      assert book[i := c][..n] == book[..n];
    } else {
      assert book[i := c][..n] == book[..n][i := c];
      TotalAfterUpdate(book[..n], i, c);
    }
  }

  const HERE := Stamp(1, 0)

  function SampleSlip(fixture: int): Slip {
    Slip([(fixture, Domain.Regulation, 1, 3000, (1, 0))])
  }

  function SampleSlips(n: nat): seq<Slip> {
    if n == 0 then [] else SampleSlips(n - 1) + [SampleSlip(n - 1)]
  }

  /** An open coupon on one match at 3.000. */
  function SampleCoupon(fixture: int): Coupon {
    Coupon(Mode.Sandbox, 1, Open, 2100, None, 3000, 0, 0, Some(0), SlipLegs(SampleSlip(fixture)), [], [])
  }

  /** Open coupons on the matches 0 to n - 1. */
  function SampleBook(n: nat): (book: seq<Coupon>)
    ensures |book| == n && forall k :: 0 <= k < n ==> book[k] == SampleCoupon(k)
  {
    if n == 0 then [] else SampleBook(n - 1) + [SampleCoupon(n - 1)]
  }

  lemma SampleOdd(fixture: int)
    ensures Domain.CombinedOdd(SlipOdds(SampleSlip(fixture))) == Some(3000)
  {
    var odds := SlipOdds(SampleSlip(fixture));
    assert odds == [3000] && odds[..0] == [];
    assert Domain.Product([]) == 1.0;
    assert Domain.Product(odds) == 3.0;
    RoundOfInteger(3000);
  }

  lemma SampleInserted(book: seq<Coupon>, fixture: int)
    requires forall k :: 0 <= k < |book| ==> |book[k].legs| == 1 && book[k].legs[0].fixture != fixture
    ensures Inserted(book, SampleSlip(fixture), 2100, HERE) == Some(book + [SampleCoupon(fixture)])
  {
    SampleOdd(fixture);
    var c := SampleCoupon(fixture);
    assert |c.legs| == 1 && !Repeated(c, 0);
    assert !Taken(book, SlotOf(c, c.legs[0].fixture));
    assert FateUpTo(book, c, 0) == Fits && FateUpTo(book, c, 1) == Fits;
  }

  lemma OneMoreOpen(book: seq<Coupon>, c: Coupon)
    requires c.status == Open
    ensures Balance(book + [c]) == Balance(book) - c.stake && Wins(book + [c]) == Wins(book)
  {
    assert (book + [c])[..|book|] == book;
  }

  lemma FiguresNext(book: seq<Coupon>, c: Coupon, staked: nat)
    requires Balance(book) == 20000 - 2100 * staked && Wins(book) == 0 && c.status == Open && c.stake == 2100
    ensures Balance(book + [c]) == 20000 - 2100 * (staked + 1) && Wins(book + [c]) == 0
  {
    OneMoreOpen(book, c);
  }

  lemma {:induction false} SampleFigures(n: nat)
    ensures Balance(SampleBook(n)) == 20000 - 2100 * n && Wins(SampleBook(n)) == 0
  {
    if n > 0 {
      SampleFigures(n - 1);
      FiguresNext(SampleBook(n - 1), SampleCoupon(n - 1), n - 1);
    }
  }

  lemma OneMoreSlip(book: seq<Coupon>, slips: seq<Slip>, before: seq<Coupon>, s: Slip, after: seq<Coupon>)
    requires Placements(book, slips, 2100, HERE) == Some(before) && Balance(before) >= 2100
    requires Inserted(before, s, 2100, HERE) == Some(after)
    ensures Placements(book, slips + [s], 2100, HERE) == Some(after)
  {
    assert (slips + [s])[..|slips|] == slips;
  }

  /** Nine stakes fit into the bankroll. */
  lemma {:induction false} SamplePlaced(n: nat)
    requires n <= 9
    ensures |SampleSlips(n)| == n && Placements([], SampleSlips(n), 2100, HERE) == Some(SampleBook(n))
  {
    if n > 0 {
      SamplePlaced(n - 1);
      SampleFigures(n - 1);
      SampleInserted(SampleBook(n - 1), n - 1);
      OneMoreSlip([], SampleSlips(n - 1), SampleBook(n - 1), SampleSlip(n - 1), SampleBook(n));
    }
  }

  /** Match 0 was abandoned, and later it is reported as played. */
  predicate IsAbandoned(r: Results) { r == map[0 := FixtureRow(Domain.ABD, Some(0), None, None, false)] }

  predicate IsPlayed(r: Results) { r == map[0 := FixtureRow(Domain.FT, Some(0), Some((1, 0)), None, true)] }

  /** The coupon on match 0 goes void and gives its stake back. */
  lemma Voided(c: Coupon, r: Results) returns (v: Coupon)
    requires c == SampleCoupon(0) && IsAbandoned(r)
    ensures v == SettledCoupon(c, r, 1) && v.status == Void && v.stake == 2100
    ensures |v.legs| == 1 && v.legs[0].status == LegVoid && v.legs[0].fixture == 0
    ensures v.legs[0].n == 1 && v.legs[0].period == Domain.Regulation
  {
    v := SettledCoupon(c, r, 1);
    var leg := SettledLeg(c.legs[0], r, 1);
    assert SettledLegs(c.legs, r, 1) == [leg];
    assert Outcomes([leg]) == [Domain.Void];
  }

  /** The late result turns the void coupon into a lost one. */
  lemma LateVerdict(v: Coupon, r: Results) returns (lost: Coupon)
    requires |v.legs| == 1 && v.status == Void && v.stake == 2100 && IsPlayed(r)
    requires v.legs[0].status == LegVoid && v.legs[0].fixture == 0
    requires v.legs[0].n == 1 && v.legs[0].period == Domain.Regulation
    ensures lost == SettledCoupon(v, r, 2) && lost.status == Lost && lost.stake == 2100
  {
    lost := SettledCoupon(v, r, 2);
    var leg := SettledLeg(v.legs[0], r, 2);
    assert SettledLegs(v.legs, r, 2) == [leg];
    assert Outcomes([leg]) == [Domain.Lost];
  }

  /** A pass over results of match 0 alone leaves coupons on other matches as they are. */
  lemma OnlyMatchZero(book: seq<Coupon>, results: Results, now: int)
    requires book != [] && results.Keys == {0}
    requires forall k :: 1 <= k < |book| ==> |book[k].legs| == 1 && book[k].legs[0].fixture != 0
    ensures WholePass(book, results, now) == book[0 := SettledCoupon(book[0], results, now)]
  {
    forall k | 1 <= k < |book| ensures SettledCoupon(book[k], results, now) == book[k] {
      assert SettledLegs(book[k].legs, results, now) == book[k].legs;
    }
  }

  lemma RunMore(events: seq<Event>, e: Event)
    ensures Run(events + [e]) == Next(Run(events), e)
  {
    assert (events + [e])[..|events|] == events;
  }

  lemma {:induction false} WinsAfterUpdate(book: seq<Coupon>, i: nat, c: Coupon)
    requires i < |book| && book[i].status != Won && c.status != Won
    ensures Wins(book[i := c]) == Wins(book)
  {
    var n := |book| - 1;
    if i == n {
      assert book[i := c][..n] == book[..n];
    } else {
      assert book[i := c][..n] == book[..n][i := c];
      WinsAfterUpdate(book[..n], i, c);
    }
  }

  /** Slips that leave too little for another stake pause the strategy. */
  lemma PausedByDelivery(events: seq<Event>, book: seq<Coupon>, slips: seq<Slip>, after: seq<Coupon>)
    requires Run(events) == Desk(InSandbox, book) && slips != [] && Wins(book) == 0
    requires Placements(book, slips, 2100, HERE) == Some(after) && Balance(after) < 2100
    ensures Run(events + [Deliver(slips, HERE)]) == Desk(Paused, after)
  {
    RunMore(events, Deliver(slips, HERE));
    assert NextStake(book) == 2100;
  }

  lemma ReleasedWhenCovered(events: seq<Event>, book: seq<Coupon>)
    requires Run(events) == Desk(Paused, book) && Balance(book) >= 2100 && Wins(book) == 0
    ensures Run(events + [Release]) == Desk(InSandbox, book)
  {
    RunMore(events, Release);
  }

  predicate OtherMatches(book: seq<Coupon>) {
    forall k :: 1 <= k < |book| ==> |book[k].legs| == 1 && book[k].legs[0].fixture != 0
  }

  /** A pass over match 0 alone replaces its coupon and moves the balance by the difference. */
  lemma ZeroSettled(events: seq<Event>, book: seq<Coupon>, r: Results, now: int, c: Coupon)
    requires Run(events) == Desk(Paused, book) && book != [] && OtherMatches(book)
    requires r.Keys == {0} && c == SettledCoupon(book[0], r, now)
    ensures Run(events + [SettleAll(r, now)]) == Desk(Paused, book[0 := c])
  {
    RunMore(events, SettleAll(r, now));
    OnlyMatchZero(book, r, now);
  }

  /** What replacing the first coupon does to the figures, when neither is a win. */
  lemma FirstReplaced(book: seq<Coupon>, c: Coupon, was: int, then_: int)
    requires book != [] && book[0].status != Won && c.status != Won
    requires was == Effect(book[0]) && then_ == Effect(c)
    ensures Balance(book[0 := c]) == Balance(book) - was + then_
    ensures Wins(book[0 := c]) == Wins(book)
  {
    TotalAfterUpdate(book, 0, c);
    WinsAfterUpdate(book, 0, c);
  }

  function FullyStaked(n: nat): seq<Event> { [] + [Deliver(SampleSlips(n), HERE)] }

  function Refunded(n: nat, r: Results): seq<Event> { FullyStaked(n) + [SettleAll(r, 1)] + [Release] }

  function StakedAgain(n: nat, r: Results): seq<Event> { Refunded(n, r) + [Deliver([SampleSlip(n)], HERE)] }

  /** Nine stakes out, 11.00 left. */
  lemma FullyStakedDesk(n: nat)
    requires n == 9
    ensures Run(FullyStaked(n)) == Desk(Paused, SampleBook(n))
  {
    SamplePlaced(n);
    SampleFigures(n);
    PausedByDelivery([], [], SampleSlips(n), SampleBook(n));
  }

  lemma VoidFigures(n: nat, v: Coupon)
    requires n == 9 && v.status == Void
    ensures Balance(SampleBook(n)[0 := v]) == 3200 && Wins(SampleBook(n)[0 := v]) == 0
  {
    SampleFigures(n);
    FirstReplaced(SampleBook(n), v, -2100, 0);
  }

  /** The void stake is back and the strategy released. */
  lemma RefundedDesk(n: nat, r: Results, v: Coupon, book: seq<Coupon>)
    requires n == 9 && r.Keys == {0} && v == SettledCoupon(SampleCoupon(0), r, 1) && v.status == Void
    requires book == SampleBook(n)[0 := v]
    ensures Run(Refunded(n, r)) == Desk(InSandbox, book) && Balance(book) == 3200 && Wins(book) == 0
  {
    FullyStakedDesk(n);
    VoidFigures(n, v);
    ZeroSettled(FullyStaked(n), SampleBook(n), r, 1, v);
    ReleasedWhenCovered(FullyStaked(n) + [SettleAll(r, 1)], book);
  }

  lemma {:induction false} StakedOnce(events: seq<Event>, book: seq<Coupon>, fixture: int)
    requires Run(events) == Desk(InSandbox, book) && Balance(book) == 3200 && Wins(book) == 0
    requires forall k :: 0 <= k < |book| ==> |book[k].legs| == 1 && book[k].legs[0].fixture != fixture
    ensures Run(events + [Deliver([SampleSlip(fixture)], HERE)]) == Desk(Paused, book + [SampleCoupon(fixture)])
    ensures Balance(book + [SampleCoupon(fixture)]) == 1100
  {
    SampleInserted(book, fixture);
    OneMoreOpen(book, SampleCoupon(fixture));
    OneMoreSlip(book, [], book, SampleSlip(fixture), book + [SampleCoupon(fixture)]);
    assert [] + [SampleSlip(fixture)] == [SampleSlip(fixture)];
    PausedByDelivery(events, book, [SampleSlip(fixture)], book + [SampleCoupon(fixture)]);
  }

  lemma {:induction false} LateLoss(events: seq<Event>, book: seq<Coupon>, r: Results, lost: Coupon)
    requires Run(events) == Desk(Paused, book) && book != [] && OtherMatches(book) && Balance(book) == 1100
    requires book[0].status == Void && r.Keys == {0}
    requires lost == SettledCoupon(book[0], r, 2) && lost.status == Lost && lost.stake == 2100
    ensures Balance(Run(events + [SettleAll(r, 2)]).book) == -1000
  {
    ZeroSettled(events, book, r, 2, lost);
    FirstReplaced(book, lost, 0, -2100);
  }

  lemma StakedAndLost(events: seq<Event>, book: seq<Coupon>, fixture: int, r: Results, lost: Coupon)
    requires Run(events) == Desk(InSandbox, book) && Balance(book) == 3200 && Wins(book) == 0
    requires fixture != 0 && book != [] && OtherMatches(book) && book[0].status == Void
    requires forall k :: 0 <= k < |book| ==> |book[k].legs| == 1 && book[k].legs[0].fixture != fixture
    requires r.Keys == {0} && lost == SettledCoupon(book[0], r, 2) && lost.status == Lost && lost.stake == 2100
    ensures Balance(Run(events + [Deliver([SampleSlip(fixture)], HERE)]).book) == 1100
    ensures Balance(Run(events + [Deliver([SampleSlip(fixture)], HERE)] + [SettleAll(r, 2)]).book) == -1000
  {
    StakedOnce(events, book, fixture);
    LateLoss(events + [Deliver([SampleSlip(fixture)], HERE)], book + [SampleCoupon(fixture)], r, lost);
  }

  lemma MatchesOfBook(n: nat, v: Coupon)
    requires n > 0 && |v.legs| == 1 && v.legs[0].fixture == 0
    ensures var book := SampleBook(n)[0 := v];
      && book != [] && book[0] == v && OtherMatches(book)
      && forall k :: 0 <= k < |book| ==> |book[k].legs| == 1 && book[k].legs[0].fixture != n
  {
  }

  lemma VoidThenLost(n: nat, first: Results, late: Results, v: Coupon, lost: Coupon)
    requires n == 9 && first.Keys == {0} && late.Keys == {0}
    requires v == SettledCoupon(SampleCoupon(0), first, 1) && v.status == Void
    requires |v.legs| == 1 && v.legs[0].fixture == 0
    requires lost == SettledCoupon(v, late, 2) && lost.status == Lost && lost.stake == 2100
    ensures Balance(Run(StakedAgain(n, first)).book) == 1100
    ensures Balance(Run(StakedAgain(n, first) + [SettleAll(late, 2)]).book) == -1000
  {
    var book := SampleBook(n)[0 := v];
    RefundedDesk(n, first, v, book);
    MatchesOfBook(n, v);
    StakedAndLost(Refunded(n, first), book, n, late, lost);
  }

  /**
    A run the program can make: nine coupons use up the bankroll, one match is
    abandoned and its stake placed again, and then that match is reported
    finished inside its window. The balance goes from 11.00 to minus 10.00.
   */
  lemma CorrectionCanOverdraw(n: nat, abandoned: Results, played: Results)
    requires n == 9 && IsAbandoned(abandoned) && IsPlayed(played)
    ensures Balance(Run(StakedAgain(n, abandoned)).book) == 1100
    ensures Balance(Run(StakedAgain(n, abandoned) + [SettleAll(played, 2)]).book) == -1000
  {
    var v := Voided(SampleCoupon(0), abandoned);
    var lost := LateVerdict(v, played);
    VoidThenLost(n, abandoned, played, v, lost);
  }

  // ------------------------------------------------------------- the mutable desk

  /** The strategy row and its sandbox coupons. */
  class Portfolio {
    var standing: Standing
    var coupons: seq<Coupon>

    function State(): Desk
      reads this
    {
      Desk(standing, coupons)
    }

    constructor ()
      ensures State() == Desk(InSandbox, [])
    {
      standing, coupons := InSandbox, [];
    }

    /** False when pricing a slip raises; the caller's transaction then leaves nothing behind. */
    method PlaceSandboxCoupons(slips: seq<Slip>, stamp: Stamp) returns (ok: bool, ids: seq<nat>, paused: bool)
      modifies this
      ensures ok <==> Delivered(old(State()), slips, stamp).Some?
      ensures State() == if ok then Delivered(old(State()), slips, stamp).value else old(State())
      ensures ok ==> |coupons| == |old(coupons)| + |ids|
      ensures ok ==> forall k :: 0 <= k < |ids| ==> ids[k] == |old(coupons)| + k
      ensures ok ==> (paused <==> standing == Paused)
    {
      ok, ids := true, [];
      if !Active(standing) { return true, [], standing == Paused; }
      if slips == [] { return true, [], false; }
      var before := coupons;
      var balance := PortfolioBalance(coupons);
      var wins := WonCount(coupons);
      var stake := StakeAfterWins(wins);
      ok, ids, balance := BuySlips(slips, balance, stake, stamp);
      if !ok {
        coupons := before;
        return false, [], false;
      }
      if balance < stake { standing := Paused; }
      paused := standing == Paused;
    }

    /** The loop over the slips. It keeps the balance by subtraction and stops when it no longer covers the stake. */
    method BuySlips(slips: seq<Slip>, opening: int, stake: int, stamp: Stamp)
      returns (ok: bool, ids: seq<nat>, balance: int)
      requires opening == Balance(coupons)
      modifies this`coupons
      ensures ok <==> Placements(old(coupons), slips, stake, stamp).Some?
      ensures ok ==> Placements(old(coupons), slips, stake, stamp) == Some(coupons)
      ensures ok ==> balance == Balance(coupons)
      ensures ok ==> |coupons| == |old(coupons)| + |ids|
      ensures ok ==> forall k :: 0 <= k < |ids| ==> ids[k] == |old(coupons)| + k
    {
      ghost var start := coupons;
      ids, balance := [], opening;
      for i := 0 to |slips|
        invariant Placements(start, slips[..i], stake, stamp) == Some(coupons)
        invariant balance == Balance(coupons)
        invariant |coupons| == |start| + |ids|
        invariant forall k :: 0 <= k < |ids| ==> ids[k] == |start| + k
      {
        if balance < stake {
          PlacementsStop(start, slips, i, stake, stamp);
          return true, ids, balance;
        }
        PlacementsNext(start, slips, i, stake, stamp);
        var id, priced := InsertSlip(slips[i], stamp, stake);
        if !priced { return false, [], balance; }
        if id.Some? { ids, balance := ids + [id.value], balance - stake; }
      }
      assert slips[..|slips|] == slips;
      ok := true;
    }

    method InsertSlip(s: Slip, stamp: Stamp, stake: int) returns (id: Option<nat>, priced: bool)
      modifies this`coupons
      ensures priced <==> Inserted(old(coupons), s, stake, stamp).Some?
      ensures Some(coupons) == if priced then Inserted(old(coupons), s, stake, stamp) else Some(old(coupons))
      ensures id == if coupons == old(coupons) then None else Some(|old(coupons)|)
      ensures Balance(coupons) == Balance(old(coupons)) - if id.Some? then stake else 0
      ensures |coupons| == |old(coupons)| + if id.Some? then 1 else 0
    {
      id, priced := None, false;
      var odd := Domain.CombineOdds(SlipOdds(s));
      if odd.None? { return; }
      var coupon := Coupon(Mode.Sandbox, stamp.strategy, Open, stake, None, odd.value, 0, stamp.at, Some(stamp.at),
                           SlipLegs(s), [], []);
      var fate := InsertLegs(coupons, coupon);
      if fate == Repeats { return; }
      priced := true;
      if fate == Fits {
        id := Some(|coupons|);
        var before := coupons;
        coupons := coupons + [coupon];
        assert coupons[..|before|] == before;
      }
    }

    /** A paused strategy returns to the sandbox once its book covers the stake. */
    method ReleaseIfFunded()
      modifies this
      ensures State() == Funded(old(State()))
    {
      if standing != Paused { return; }
      var wins := WonCount(coupons);
      var balance := PortfolioBalance(coupons);
      if balance >= StakeAfterWins(wins) { standing := InSandbox; }
    }
  }

  lemma PlacementsNext(book: seq<Coupon>, slips: seq<Slip>, i: nat, stake: int, stamp: Stamp)
    requires i < |slips| && Placements(book, slips[..i], stake, stamp).Some?
    requires Balance(Placements(book, slips[..i], stake, stamp).value) >= stake
    ensures Placements(book, slips[..i + 1], stake, stamp)
      == Inserted(Placements(book, slips[..i], stake, stamp).value, slips[i], stake, stamp)
    ensures Placements(book, slips[..i + 1], stake, stamp).None? ==> Placements(book, slips, stake, stamp).None?
  {
    assert slips[..i + 1][..i] == slips[..i];
    if Placements(book, slips[..i + 1], stake, stamp).None? { FailureStands(book, slips, i + 1, stake, stamp); }
  }

  lemma {:induction false} FailureStands(book: seq<Coupon>, slips: seq<Slip>, i: nat, stake: int, stamp: Stamp)
    requires i <= |slips| && Placements(book, slips[..i], stake, stamp).None?
    ensures Placements(book, slips, stake, stamp).None?
  {
    if i < |slips| {
      assert slips[..|slips| - 1][..i] == slips[..i];
      FailureStands(book, slips[..|slips| - 1], i, stake, stamp);
    } else {
      assert slips[..i] == slips;
    }
  }

  /** Once the money is gone, or the slips are, the rest of the slips change nothing. */
  lemma {:induction false} PlacementsStop(book: seq<Coupon>, slips: seq<Slip>, i: nat, stake: int, stamp: Stamp)
    requires i <= |slips| && Placements(book, slips[..i], stake, stamp).Some?
    requires i == |slips| || Balance(Placements(book, slips[..i], stake, stamp).value) < stake
    ensures Placements(book, slips, stake, stamp) == Placements(book, slips[..i], stake, stamp)
  {
    if i < |slips| {
      assert slips[..|slips| - 1][..i] == slips[..i];
      PlacementsStop(book, slips[..|slips| - 1], i, stake, stamp);
    } else {
      assert slips[..i] == slips;
    }
  }
}
