/**
  The ledger as the program writes it: rows assigned in place, legs and coupons
  walked one by one. Every method is proved to do to its coupon exactly what
  the coupon-level functions say, and to leave the other coupons alone.
 */
module Ledger {
  import opened Prelude
  import opened Coupons
  import opened Settle
  import opened RecommendOps
  import Domain

  /** The ledger after each slip in turn is tried; None where one of them raises. */
  function Stored(coupons: seq<Coupon>, strategy: int, slips: seq<Slip>, stake: int, floor: int,
                  createdAt: int): Option<seq<Coupon>>
  {
    if slips == [] then Some(coupons)
    else
      var before := Stored(coupons, strategy, slips[..|slips| - 1], stake, floor, createdAt);
      if before.None? then None
      else Tried(before.value, Recommendation, strategy, slips[|slips| - 1], stake, floor, createdAt)
  }

  lemma StoredNext(coupons: seq<Coupon>, strategy: int, slips: seq<Slip>, i: nat,
                   stake: int, floor: int, createdAt: int)
    requires i < |slips| && Stored(coupons, strategy, slips[..i], stake, floor, createdAt).Some?
    ensures Stored(coupons, strategy, slips[..i + 1], stake, floor, createdAt)
      == Tried(Stored(coupons, strategy, slips[..i], stake, floor, createdAt).value,
               Recommendation, strategy, slips[i], stake, floor, createdAt)
  {
    assert slips[..i + 1][..i] == slips[..i];
  }

  lemma {:induction false} StoringFailsForGood(coupons: seq<Coupon>, strategy: int, slips: seq<Slip>, i: nat,
                                               stake: int, floor: int, createdAt: int)
    requires i <= |slips| && Stored(coupons, strategy, slips[..i], stake, floor, createdAt).None?
    ensures Stored(coupons, strategy, slips, stake, floor, createdAt).None?
  {
    if i < |slips| {
      assert slips[..|slips| - 1][..i] == slips[..i];
      StoringFailsForGood(coupons, strategy, slips[..|slips| - 1], i, stake, floor, createdAt);
    } else {
      assert slips[..i] == slips;
    }
  }

  /** The coupons that a change did not leave as they were. */
  function Changed(before: seq<Coupon>, after: seq<Coupon>): set<nat>
    requires |before| == |after|
  {
    set k: nat | k < |after| && after[k] != before[k]
  }

  lemma ChangeOneMore(before: seq<Coupon>, after: seq<Coupon>, i: nat, c: Coupon)
    requires |before| == |after| && i < |after| && after[i] == before[i]
    ensures |Changed(before, after[i := c])| == |Changed(before, after)| + if c != before[i] then 1 else 0
  {
    var more: set<nat> := if c != before[i] then {i} else {};
    assert Changed(before, after[i := c]) == Changed(before, after) + more;
  }

  /** The sweep of `expire_due` once it has passed the first `i` coupons. */
  function Swept(coupons: seq<Coupon>, i: nat, now: int, ttl: int, boards: Boards): (r: seq<Coupon>)
    ensures |r| == |coupons|
    ensures forall k :: 0 <= k < |r| ==> r[k] == if k < i then ExpireDue(coupons[k], now, ttl, boards) else coupons[k]
  {
    seq(|coupons|, k requires 0 <= k < |coupons| =>
      if k < i then ExpireDue(coupons[k], now, ttl, boards) else coupons[k])
  }

  lemma SweptStart(coupons: seq<Coupon>, now: int, ttl: int, boards: Boards)
    ensures Swept(coupons, 0, now, ttl, boards) == coupons
  {
  }

  lemma SweptNext(coupons: seq<Coupon>, i: nat, now: int, ttl: int, boards: Boards)
    requires i < |coupons|
    ensures Swept(coupons, i, now, ttl, boards)[i] == coupons[i]
    ensures var after := ExpireDue(coupons[i], now, ttl, boards);
      && Swept(coupons, i + 1, now, ttl, boards) == Swept(coupons, i, now, ttl, boards)[i := after]
      && (after == coupons[i] ==> Swept(coupons, i + 1, now, ttl, boards) == Swept(coupons, i, now, ttl, boards))
      && (after != coupons[i] ==> after == ExpiredCoupon(coupons[i], Expire))
  {
  }

  // ------------------------------------------------- one pass, row by row

  /** A row of the settlement query: a leg and the coupon it belongs to. */
  datatype Row = Row(coupon: nat, leg: nat)

  predicate InRange(coupons: seq<Coupon>, row: Row) {
    row.coupon < |coupons| && row.leg < |coupons[row.coupon].legs|
  }

  /** The query: legs that were not removed, on coupons that are in play or settled, on known fixtures. */
  predicate Selected(coupons: seq<Coupon>, row: Row, results: Results) {
    && InRange(coupons, row)
    && Settleable(coupons[row.coupon].status)
    && coupons[row.coupon].legs[row.leg].status != Removed
    && coupons[row.coupon].legs[row.leg].fixture in results
  }

  /** The rows are what the query returns, in whatever order. */
  ghost predicate QueryRows(coupons: seq<Coupon>, rows: seq<Row>, results: Results) {
    forall row :: row in rows <==> Selected(coupons, row, results)
  }

  function AfterRow(coupons: seq<Coupon>, row: Row, results: Results, now: int): seq<Coupon>
    requires InRange(coupons, row)
  {
    var c := coupons[row.coupon];
    coupons[row.coupon := c.(legs := c.legs[row.leg := SettledLeg(c.legs[row.leg], results, now)])]
  }

  predicate RowTouches(coupons: seq<Coupon>, row: Row, results: Results, now: int)
    requires InRange(coupons, row)
  {
    var leg := coupons[row.coupon].legs[row.leg];
    SettledLeg(leg, results, now) != leg
  }

  lemma UntouchedRow(coupons: seq<Coupon>, row: Row, results: Results, now: int)
    requires InRange(coupons, row)
    ensures !RowTouches(coupons, row, results, now) ==> AfterRow(coupons, row, results, now) == coupons
  {
    var c := coupons[row.coupon];
    assert c.legs[row.leg := c.legs[row.leg]] == c.legs;
  }

  ghost predicate SameShape(a: seq<Coupon>, b: seq<Coupon>) {
    |a| == |b| && forall i :: 0 <= i < |a| ==> |a[i].legs| == |b[i].legs|
  }

  function AfterRows(coupons: seq<Coupon>, rows: seq<Row>, results: Results, now: int): (after: seq<Coupon>)
    requires forall r :: 0 <= r < |rows| ==> InRange(coupons, rows[r])
    ensures SameShape(after, coupons)
  {
    if rows == [] then coupons
    else
      var n := |rows| - 1;
      assert InRange(coupons, rows[n]);
      AfterRow(AfterRows(coupons, rows[..n], results, now), rows[n], results, now)
  }

  lemma RowsKeepShape(coupons: seq<Coupon>, rows: seq<Row>, results: Results, now: int)
    requires forall r :: 0 <= r < |rows| ==> InRange(coupons, rows[r])
    ensures SameShape(AfterRows(coupons, rows, results, now), coupons)
  {
  }

  function Touched(coupons: seq<Coupon>, rows: seq<Row>, results: Results, now: int): set<nat>
    requires forall r :: 0 <= r < |rows| ==> InRange(coupons, rows[r])
  {
    if rows == [] then {}
    else
      var n := |rows| - 1;
      assert InRange(coupons, rows[n]);
      Touched(coupons, rows[..n], results, now)
      + if RowTouches(AfterRows(coupons, rows[..n], results, now), rows[n], results, now)
        then {rows[n].coupon} else {}
  }

  /** Which of the coupons a refresh rewrites. */
  function Rewritten(coupons: seq<Coupon>, ids: set<nat>): set<nat> {
    set i | i in ids && i < |coupons| && RefreshedCoupon(coupons[i]) != coupons[i]
  }

  function Refreshed(coupons: seq<Coupon>, ids: set<nat>): (r: seq<Coupon>)
    ensures |r| == |coupons|
    ensures forall i :: 0 <= i < |r| ==> r[i] == if i in ids then RefreshedCoupon(coupons[i]) else coupons[i]
  {
    seq(|coupons|, i requires 0 <= i < |coupons| => if i in ids then RefreshedCoupon(coupons[i]) else coupons[i])
  }

  /** Coupons whose verdict a pass rewrote. */
  function Reverdicted(before: seq<Coupon>, after: seq<Coupon>): set<nat>
    requires |before| == |after|
  {
    set i: nat | i < |after| && after[i].verdicts != before[i].verdicts
  }

  /** After some rows each leg is either as it was or settled, never settled twice over. */
  lemma {:induction false} RowsSettleLegs(coupons: seq<Coupon>, rows: seq<Row>, results: Results, now: int,
                                          i: nat, j: nat)
    requires forall r :: 0 <= r < |rows| ==> InRange(coupons, rows[r])
    requires InRange(coupons, Row(i, j))
    ensures var after := AfterRows(coupons, rows, results, now);
      after[i].legs[j]
      == if Row(i, j) in rows then SettledLeg(coupons[i].legs[j], results, now) else coupons[i].legs[j]
  {
    if rows != [] {
      var n := |rows| - 1;
      RowsSettleLegs(coupons, rows[..n], results, now, i, j);
      assert rows == rows[..n] + [rows[n]];
    }
  }

  lemma {:induction false} RowsKeepRest(coupons: seq<Coupon>, rows: seq<Row>, results: Results, now: int, i: nat)
    requires forall r :: 0 <= r < |rows| ==> InRange(coupons, rows[r])
    requires i < |coupons|
    ensures var after := AfterRows(coupons, rows, results, now);
      after[i] == coupons[i].(legs := after[i].legs)
  {
    if rows != [] { RowsKeepRest(coupons, rows[..|rows| - 1], results, now, i); }
  }

  /** A row changes a coupon for good: settling a leg again never brings back what it was. */
  lemma RowChangesForGood(coupons: seq<Coupon>, before: seq<Coupon>, row: Row, results: Results, now: int, i: nat)
    requires SameShape(before, coupons) && InRange(coupons, row) && i < |coupons|
    requires var was, leg := coupons[row.coupon].legs[row.leg], before[row.coupon].legs[row.leg];
      leg == was || leg == SettledLeg(was, results, now)
    ensures AfterRow(before, row, results, now)[i] != coupons[i]
      <==> before[i] != coupons[i] || (i == row.coupon && RowTouches(before, row, results, now))
  {
    UntouchedRow(before, row, results, now);
    var was, leg := coupons[row.coupon].legs[row.leg], before[row.coupon].legs[row.leg];
    var next := SettledLeg(leg, results, now);
    if i == row.coupon && next != leg {
      assert leg == was && AfterRow(before, row, results, now)[i].legs[row.leg] == next;
    }
  }

  /** A coupon is touched exactly when the rows changed it. */
  lemma {:induction false} TouchedIffChanged(coupons: seq<Coupon>, rows: seq<Row>, results: Results, now: int, i: nat)
    requires forall r :: 0 <= r < |rows| ==> InRange(coupons, rows[r])
    requires i < |coupons|
    ensures i in Touched(coupons, rows, results, now) <==> AfterRows(coupons, rows, results, now)[i] != coupons[i]
  {
    if rows != [] {
      var n := |rows| - 1;
      var row := rows[n];
      TouchedIffChanged(coupons, rows[..n], results, now, i);
      RowsSettleLegs(coupons, rows[..n], results, now, row.coupon, row.leg);
      RowChangesForGood(coupons, AfterRows(coupons, rows[..n], results, now), row, results, now, i);
    }
  }

  /** Whatever the row order, the legs of every coupon end as a whole pass settles them. */
  lemma AnyRowOrderSettles(coupons: seq<Coupon>, rows: seq<Row>, results: Results, now: int, i: nat)
    requires QueryRows(coupons, rows, results) && i < |coupons|
    ensures forall r :: 0 <= r < |rows| ==> InRange(coupons, rows[r])
    ensures AfterRows(coupons, rows, results, now)[i]
      == if Settleable(coupons[i].status) then coupons[i].(legs := SettledLegs(coupons[i].legs, results, now))
         else coupons[i]
  {
    forall r | 0 <= r < |rows| ensures InRange(coupons, rows[r]) {
      assert Selected(coupons, rows[r], results);
    }
    var after := AfterRows(coupons, rows, results, now);
    RowsKeepRest(coupons, rows, results, now, i);
    forall j | 0 <= j < |coupons[i].legs|
      ensures after[i].legs[j]
        == if Settleable(coupons[i].status) then SettledLeg(coupons[i].legs[j], results, now) else coupons[i].legs[j]
    {
      RowsSettleLegs(coupons, rows, results, now, i, j);
      assert Row(i, j) in rows <==> Selected(coupons, Row(i, j), results);
    }
    if Settleable(coupons[i].status) {
      assert after[i].legs == SettledLegs(coupons[i].legs, results, now);
    } else {
      assert after[i].legs == coupons[i].legs;
    }
  }

  lemma QueryRowsInRange(coupons: seq<Coupon>, rows: seq<Row>, results: Results)
    requires QueryRows(coupons, rows, results)
    ensures forall r :: 0 <= r < |rows| ==> InRange(coupons, rows[r])
  {
    forall r | 0 <= r < |rows| ensures InRange(coupons, rows[r]) {
      assert Selected(coupons, rows[r], results);
    }
  }

  /** What the row loop leaves of a coupon is what its refresh, if it was touched, completes. */
  lemma OneCouponOfThePass(coupons: seq<Coupon>, rows: seq<Row>, results: Results, now: int, i: nat)
    requires QueryRows(coupons, rows, results) && i < |coupons| && coupons[i].legs != []
    ensures forall r :: 0 <= r < |rows| ==> InRange(coupons, rows[r])
    ensures var mid := AfterRows(coupons, rows, results, now);
      && mid[i].legs != [] && mid[i].verdicts == coupons[i].verdicts
      && SettledCoupon(coupons[i], results, now)
         == if i in Touched(coupons, rows, results, now) then RefreshedCoupon(mid[i]) else mid[i]
  {
    AnyRowOrderSettles(coupons, rows, results, now, i);
    TouchedIffChanged(coupons, rows, results, now, i);
  }

  lemma {:induction false} TouchedInRange(coupons: seq<Coupon>, rows: seq<Row>, results: Results, now: int)
    requires forall r :: 0 <= r < |rows| ==> InRange(coupons, rows[r])
    ensures forall i :: i in Touched(coupons, rows, results, now) ==> i < |coupons|
  {
    if rows != [] { TouchedInRange(coupons, rows[..|rows| - 1], results, now); }
  }

  lemma OneMoreRefreshed(coupons: seq<Coupon>, ids: set<nat>, id: nat)
    requires id !in ids && id < |coupons|
    ensures Refreshed(coupons, ids)[id] == coupons[id]
    ensures Refreshed(coupons, ids + {id}) == Refreshed(coupons, ids)[id := RefreshedCoupon(coupons[id])]
    ensures |Rewritten(coupons, ids + {id})|
      == |Rewritten(coupons, ids)| + if RefreshedCoupon(coupons[id]) != coupons[id] then 1 else 0
  {
    var more := if RefreshedCoupon(coupons[id]) != coupons[id] then {id} else {};
    assert Rewritten(coupons, ids + {id}) == Rewritten(coupons, ids) + more;
  }

  lemma RefreshStarts(coupons: seq<Coupon>, touched: set<nat>)
    ensures Refreshed(coupons, touched - touched) == coupons
    ensures |Rewritten(coupons, touched - touched)| == 0
    ensures touched - {} == touched
  {
    assert touched - touched == {};
    assert Refreshed(coupons, {}) == coupons && Rewritten(coupons, {}) == {};
  }

  /** One turn of the refresh loop, with `todo` the coupons still to come. */
  lemma RefreshNext(coupons: seq<Coupon>, touched: set<nat>, todo: set<nat>, id: nat)
    requires todo <= touched && id in todo && id < |coupons|
    ensures var now := Refreshed(coupons, touched - todo);
      var c := coupons[id];
      && now[id] == c
      && Refreshed(coupons, touched - (todo - {id})) == now[id := RefreshedCoupon(c)]
      && (RefreshedCoupon(c) == c ==> now[id := c] == now)
      && |Rewritten(coupons, touched - (todo - {id}))|
         == |Rewritten(coupons, touched - todo)| + if RefreshedCoupon(c) != c then 1 else 0
  {
    OneMoreRefreshed(coupons, touched - todo, id);
    assert touched - (todo - {id}) == touched - todo + {id};
  }

  /** Rows in any order and then the touched coupons in any order: the whole pass. */
  lemma RowsThenRefreshIsThePass(coupons: seq<Coupon>, rows: seq<Row>, results: Results, now: int)
    requires QueryRows(coupons, rows, results)
    requires forall i :: 0 <= i < |coupons| ==> coupons[i].legs != []
    ensures forall r :: 0 <= r < |rows| ==> InRange(coupons, rows[r])
    ensures var mid := AfterRows(coupons, rows, results, now);
      var touched := Touched(coupons, rows, results, now);
      && (forall i :: 0 <= i < |mid| ==> mid[i].legs != [])
      && (forall i :: i in touched ==> i < |mid|)
      && Refreshed(mid, touched) == WholePass(coupons, results, now)
      && Rewritten(mid, touched) == Reverdicted(coupons, WholePass(coupons, results, now))
  {
    QueryRowsInRange(coupons, rows, results);
    TouchedInRange(coupons, rows, results, now);
    var mid := AfterRows(coupons, rows, results, now);
    var touched := Touched(coupons, rows, results, now);
    forall i | 0 <= i < |mid|
      ensures mid[i].legs != [] && mid[i].verdicts == coupons[i].verdicts
      ensures SettledCoupon(coupons[i], results, now) == if i in touched then RefreshedCoupon(mid[i]) else mid[i]
    {
      OneCouponOfThePass(coupons, rows, results, now, i);
    }
    forall i: nat | i < |mid|
      ensures i in Rewritten(mid, touched) <==> i in Reverdicted(coupons, WholePass(coupons, results, now))
    {
      RefreshRewritesVerdicts(mid[i]);
    }
    assert Rewritten(mid, touched) == Reverdicted(coupons, WholePass(coupons, results, now));
  }

  lemma RefreshRewritesVerdicts(c: Coupon)
    ensures RefreshedCoupon(c) != c <==> RefreshedCoupon(c).verdicts != c.verdicts
  {
    if RefreshedCoupon(c) != c {
      assert |RefreshedCoupon(c).verdicts| == |c.verdicts| + 1;
    }
  }

  /** The same facts again: no row changes and no coupon is counted. */
  lemma SecondPassOverTheLedger(coupons: seq<Coupon>, results: Results, now: int)
    ensures var once := WholePass(coupons, results, now);
      WholePass(once, results, now) == once && Reverdicted(once, WholePass(once, results, now)) == {}
  {
    var once := WholePass(coupons, results, now);
    forall i | 0 <= i < |once| ensures SettledCoupon(once[i], results, now) == once[i] {
      SecondPassIsSilent(coupons[i], results, now);
    }
    assert WholePass(once, results, now) == once;
  }

  // ------------------------------------------------------------------ the flush

  /** The leg came back to a match it had let go of. */
  predicate Claims(before: seq<Coupon>, after: seq<Coupon>, k: nat, i: nat)
    requires SameRows(before, after)
  {
    k < |after| && i < |after[k].legs| && !Holding(before[k].legs[i].status) && Holding(after[k].legs[i].status)
  }

  /** Same coupons and legs, on the same matches; only what happened to them differs. */
  predicate SameRows(before: seq<Coupon>, after: seq<Coupon>) {
    && |before| == |after|
    && forall k :: 0 <= k < |after| ==> SameLegs(before[k], after[k])
  }

  predicate SameLegs(a: Coupon, b: Coupon) {
    && a.mode == b.mode && a.strategy == b.strategy && |a.legs| == |b.legs|
    && forall i :: 0 <= i < |b.legs| ==> a.legs[i].fixture == b.legs[i].fixture
  }

  /** The leg with the smaller key is updated first. */
  predicate Precedes(k: nat, i: nat, l: nat, j: nat) { k < l || (k == l && i < j) }

  /** When leg (k, i) takes back its match, leg (l, j) holds it: updated already, or not yet. */
  predicate ClashAt(before: seq<Coupon>, after: seq<Coupon>, k: nat, i: nat, l: nat, j: nat)
    requires SameRows(before, after)
  {
    && Claims(before, after, k, i)
    && l < |after| && j < |after[l].legs| && (k != l || i != j)
    && SlotOf(after[k], after[k].legs[i].fixture) == SlotOf(after[l], after[l].legs[j].fixture)
    && Holding(if Precedes(l, j, k, i) then after[l].legs[j].status else before[l].legs[j].status)
  }

  predicate Clashes(before: seq<Coupon>, after: seq<Coupon>)
    requires SameRows(before, after)
  {
    exists k: nat, i: nat, l: nat, j: nat
      | k < |after| && i < |after[k].legs| && l < |after| && j < |after[l].legs| ::
      ClashAt(before, after, k, i, l, j)
  }

  /** Another leg holds, after the change, the match that leg (k, i) took back. */
  ghost predicate Shared(after: seq<Coupon>, k: nat, i: nat)
    requires k < |after| && i < |after[k].legs|
  {
    exists l: nat, j: nat ::
      HoldsAt(after, l, j, SlotOf(after[k], after[k].legs[i].fixture)) && (l != k || j != i)
  }

  /** A change keeps one holder per match exactly when no leg takes back a match that another then holds. */
  lemma OneHolderIffNothingShared(before: seq<Coupon>, after: seq<Coupon>)
    requires SameRows(before, after) && OneHolder(before)
    ensures OneHolder(after) <==> forall k: nat, i: nat :: Claims(before, after, k, i) ==> !Shared(after, k, i)
  {
    if OneHolder(after) {
      forall k: nat, i: nat | Claims(before, after, k, i) ensures !Shared(after, k, i) {
        assert HoldsAt(after, k, i, SlotOf(after[k], after[k].legs[i].fixture));
      }
    }
    if forall k: nat, i: nat :: Claims(before, after, k, i) ==> !Shared(after, k, i) {
      forall k: nat, i: nat, l: nat, j: nat, slot | HoldsAt(after, k, i, slot) && HoldsAt(after, l, j, slot)
        ensures k == l && i == j
      {
        if !(k == l && i == j) {
          assert Shared(after, k, i) && Shared(after, l, j);
          assert HoldsAt(before, k, i, slot) && HoldsAt(before, l, j, slot);
        }
      }
    }
  }

  /** A flush that meets no clash leaves one holder per match. */
  lemma NoClashKeepsOneHolder(before: seq<Coupon>, after: seq<Coupon>)
    requires SameRows(before, after) && OneHolder(before) && !Clashes(before, after)
    ensures OneHolder(after)
  {
    forall k: nat, i: nat, l: nat, j: nat, slot | HoldsAt(after, k, i, slot) && HoldsAt(after, l, j, slot)
      ensures k == l && i == j
    {
      if !(k == l && i == j) {
        if Precedes(k, i, l, j) {
          HoldersClash(before, after, k, i, l, j, slot);
        } else {
          HoldersClash(before, after, l, j, k, i, slot);
        }
      }
    }
  }

  lemma HoldersClash(before: seq<Coupon>, after: seq<Coupon>, k: nat, i: nat, l: nat, j: nat, slot: Slot)
    requires SameRows(before, after) && OneHolder(before) && Precedes(k, i, l, j)
    requires HoldsAt(after, k, i, slot) && HoldsAt(after, l, j, slot)
    ensures Clashes(before, after)
  {
    if Claims(before, after, l, j) {
      assert ClashAt(before, after, l, j, k, i);
    } else {
      assert HoldsAt(before, l, j, slot);
      assert !HoldsAt(before, k, i, slot);
      assert ClashAt(before, after, k, i, l, j);
    }
  }

  /** A leg whose key follows lets go of the match in the same flush, but only after it was claimed. */
  ghost predicate LetsGoTooLate(before: seq<Coupon>, after: seq<Coupon>, k: nat, i: nat)
    requires SameRows(before, after) && k < |after| && i < |after[k].legs|
  {
    var slot := SlotOf(after[k], after[k].legs[i].fixture);
    exists l: nat, j: nat ::
      HoldsAt(before, l, j, slot) && !HoldsAt(after, l, j, slot) && (k < l || (k == l && i < j))
  }

  /**
    The exact condition of a settlement pass: it goes through when no leg takes
    back a match that another leg holds afterwards, or lets go of too late.
   */
  lemma FlushPassesIff(before: seq<Coupon>, after: seq<Coupon>)
    requires SameRows(before, after) && OneHolder(before)
    ensures !Clashes(before, after) <==> forall k: nat, i: nat :: Claims(before, after, k, i) ==>
      !Shared(after, k, i) && !LetsGoTooLate(before, after, k, i)
  {
    if !Clashes(before, after) {
      NoClashKeepsOneHolder(before, after);
      OneHolderIffNothingShared(before, after);
      forall k: nat, i: nat | Claims(before, after, k, i) ensures !LetsGoTooLate(before, after, k, i) {
        LateMeansClash(before, after, k, i);
      }
    }
    if Clashes(before, after) {
      var k: nat, i: nat, l: nat, j: nat :| k < |after| && i < |after[k].legs| && l < |after| && j < |after[l].legs|
        && ClashAt(before, after, k, i, l, j);
      ClashIsSharedOrLate(before, after, k, i, l, j);
    }
  }

  lemma LateMeansClash(before: seq<Coupon>, after: seq<Coupon>, k: nat, i: nat)
    requires SameRows(before, after) && Claims(before, after, k, i)
    ensures LetsGoTooLate(before, after, k, i) ==> Clashes(before, after)
  {
    if LetsGoTooLate(before, after, k, i) {
      var slot := SlotOf(after[k], after[k].legs[i].fixture);
      var l: nat, j: nat :| HoldsAt(before, l, j, slot) && !HoldsAt(after, l, j, slot)
        && (k < l || (k == l && i < j));
      assert ClashAt(before, after, k, i, l, j);
    }
  }

  lemma ClashIsSharedOrLate(before: seq<Coupon>, after: seq<Coupon>, k: nat, i: nat, l: nat, j: nat)
    requires SameRows(before, after) && ClashAt(before, after, k, i, l, j)
    ensures Shared(after, k, i) || LetsGoTooLate(before, after, k, i)
  {
    var slot := SlotOf(after[k], after[k].legs[i].fixture);
    if HoldsAt(after, l, j, slot) {
      assert Shared(after, k, i);
    } else {
      assert HoldsAt(before, l, j, slot) && Precedes(k, i, l, j);
    }
  }

  /** In a pass a leg takes back its match only when a verdict is corrected to manual. */
  lemma ClaimIsAManualCorrection(l: Leg, results: Results, now: int)
    requires !Holding(l.status) && Holding(SettledLeg(l, results, now).status)
    ensures l.status in {LegWon, LegLost, LegVoid} && SettledLeg(l, results, now).status == LegManual
    ensures l.fixture in results && InsideCorrectionWindow(results[l.fixture], now)
  {
  }

  lemma PassKeepsRows(coupons: seq<Coupon>, results: Results, now: int)
    ensures SameRows(coupons, WholePass(coupons, results, now))
  {
  }

  /** The pass meets a clash in its flush and is rolled back. */
  predicate RolledBack(coupons: seq<Coupon>, results: Results, now: int) {
    PassKeepsRows(coupons, results, now);
    Clashes(coupons, WholePass(coupons, results, now))
  }

  lemma LegsDecideClashes(before: seq<Coupon>, a: seq<Coupon>, b: seq<Coupon>)
    requires SameRows(before, a) && SameRows(before, b)
    requires forall k :: 0 <= k < |a| ==> a[k].legs == b[k].legs
    ensures Clashes(before, a) ==> Clashes(before, b)
  {
    if Clashes(before, a) {
      var k: nat, i: nat, l: nat, j: nat :| k < |a| && i < |a[k].legs| && l < |a| && j < |a[l].legs|
        && ClashAt(before, a, k, i, l, j);
      assert SameLegs(before[k], a[k]) && SameLegs(before[l], a[l]);
      assert SameLegs(before[k], b[k]) && SameLegs(before[l], b[l]);
      assert ClashAt(before, b, k, i, l, j);
    }
  }

  /** The legs as the row loop leaves them are those of the whole pass, so the flush sees the same clashes. */
  lemma SameLegsSameClashes(coupons: seq<Coupon>, mid: seq<Coupon>, rows: seq<Row>, results: Results, now: int)
    requires QueryRows(coupons, rows, results)
    requires forall i :: 0 <= i < |coupons| ==> coupons[i].legs != []
    requires forall r :: 0 <= r < |rows| ==> InRange(coupons, rows[r])
    requires mid == AfterRows(coupons, rows, results, now)
    ensures SameRows(coupons, mid)
    ensures Clashes(coupons, mid) <==> RolledBack(coupons, results, now)
  {
    var after := WholePass(coupons, results, now);
    PassKeepsRows(coupons, results, now);
    forall k | 0 <= k < |coupons| ensures SameLegs(coupons[k], mid[k]) && mid[k].legs == after[k].legs {
      RowsGiveThePassLegs(coupons, rows, results, now, k);
      assert SameLegs(coupons[k], after[k]);
    }
    LegsDecideClashes(coupons, mid, after);
    LegsDecideClashes(coupons, after, mid);
  }

  lemma RowsGiveThePassLegs(coupons: seq<Coupon>, rows: seq<Row>, results: Results, now: int, k: nat)
    requires QueryRows(coupons, rows, results) && k < |coupons| && coupons[k].legs != []
    ensures forall r :: 0 <= r < |rows| ==> InRange(coupons, rows[r])
    ensures var mid := AfterRows(coupons, rows, results, now)[k];
      mid == coupons[k].(legs := mid.legs) && mid.legs == SettledCoupon(coupons[k], results, now).legs
  {
    AnyRowOrderSettles(coupons, rows, results, now, k);
    RowsKeepRest(coupons, rows, results, now, k);
  }

  /**
    A void leg and an open one on a match that is then reported finished
    without a score: both would wait for an operator on it, so the pass is
    rolled back.
   */
  lemma VoidAndPlacedCollide(a: Coupon, b: Coupon, results: Results, now: int)
    requires a.mode == b.mode == Recommendation && a.status == Void && b.status == Placed
    requires |a.legs| == |b.legs| == 1 && a.legs[0].fixture == b.legs[0].fixture
    requires a.legs[0].status == LegVoid && b.legs[0].status == LegOpen
    requires a.legs[0].fixture in results && NoFinalScoreAt(results[a.legs[0].fixture], now)
    ensures RolledBack([a, b], results, now)
  {
    var after := WholePass([a, b], results, now);
    PassKeepsRows([a, b], results, now);
    assert SettledLeg(a.legs[0], results, now).status == LegManual;
    assert SettledLegs(a.legs, results, now)[0].status == LegManual;
    assert after[0].legs == SettledLegs(a.legs, results, now);
    assert ClashAt([a, b], after, 0, 0, 1, 0);
  }

  /** Finished and refreshed, but without the scores that settle, inside the correction window. */
  predicate NoFinalScoreAt(row: FixtureRow, now: int) {
    row.status == Domain.FT && row.refreshed && row.fulltime.None? && row.extratime.None?
    && InsideCorrectionWindow(row, now)
  }

  // ----------------------------------------------------------------- ledger runs

  /** What can happen to the ledger. A settlement of one coupon alone does not occur. */
  datatype LedgerOp =
    | ActOn(id: nat, action: Action)
    | ExpireEverything(now: int, ttl: int, boards: Boards)
    | WithdrawThese(ids: set<int>)
    | ProposeSlips(strategy: int, slips: seq<Slip>, stake: int, floor: int, createdAt: int)
    | BetSandbox(strategy: int, slip: Slip, stake: int, at: int)
    | SettlePass(results: Results, now: int)

  function WithdrawnAll(coupons: seq<Coupon>, ids: set<int>): (r: seq<Coupon>)
    ensures |r| == |coupons|
    ensures forall k :: 0 <= k < |r| ==> r[k] == if k in ids then Withdrawn(coupons[k]) else coupons[k]
  {
    seq(|coupons|, k requires 0 <= k < |coupons| => if k in ids then Withdrawn(coupons[k]) else coupons[k])
  }

  function OrElse(attempt: Option<seq<Coupon>>, coupons: seq<Coupon>): seq<Coupon> {
    if attempt.Some? then attempt.value else coupons
  }

  function LedgerNext(coupons: seq<Coupon>, op: LedgerOp): seq<Coupon> {
    match op
    case ActOn(id, action) =>
      if id >= |coupons| || action.DoSettle? then coupons else coupons[id := Act(coupons[id], action)]
    case ExpireEverything(now, ttl, boards) => Swept(coupons, |coupons|, now, ttl, boards)
    case WithdrawThese(ids) => WithdrawnAll(coupons, ids)
    case ProposeSlips(strategy, slips, stake, floor, createdAt) =>
      OrElse(Stored(coupons, strategy, slips, stake, floor, createdAt), coupons)
    case BetSandbox(strategy, slip, stake, at) => OrElse(Tried(coupons, Sandbox, strategy, slip, stake, 0, at), coupons)
    case SettlePass(results, now) =>
      if RolledBack(coupons, results, now) then coupons else WholePass(coupons, results, now)
  }

  function LedgerAfter(ops: seq<LedgerOp>): seq<Coupon> {
    if ops == [] then [] else LedgerNext(LedgerAfter(ops[..|ops| - 1]), ops[|ops| - 1])
  }

  /** Every coupon keeps its invariant and no match is held twice. */
  ghost predicate LedgerOk(coupons: seq<Coupon>) {
    && (forall k :: 0 <= k < |coupons| ==> CouponOk(coupons[k]))
    && OneHolder(coupons)
  }

  lemma TriedKeepsLedgerOk(coupons: seq<Coupon>, mode: Mode, strategy: int, s: Slip, stake: int, floor: int, at: int)
    requires LedgerOk(coupons) && Tried(coupons, mode, strategy, s, stake, floor, at).Some?
    ensures LedgerOk(Tried(coupons, mode, strategy, s, stake, floor, at).value)
  {
    BornOk(mode, strategy, s, stake, floor, at);
    EnteredKeepsOneHolder(coupons, Born(mode, strategy, s, stake, floor, at).value);
  }

  lemma {:induction false} StoredKeepsLedgerOk(coupons: seq<Coupon>, strategy: int, slips: seq<Slip>,
                                               stake: int, floor: int, at: int)
    requires LedgerOk(coupons) && Stored(coupons, strategy, slips, stake, floor, at).Some?
    ensures LedgerOk(Stored(coupons, strategy, slips, stake, floor, at).value)
  {
    if slips != [] {
      var n := |slips| - 1;
      StoredKeepsLedgerOk(coupons, strategy, slips[..n], stake, floor, at);
      TriedKeepsLedgerOk(Stored(coupons, strategy, slips[..n], stake, floor, at).value,
                         Recommendation, strategy, slips[n], stake, floor, at);
    }
  }

  /** Coupon by coupon, a change made of actions keeps the ledger. */
  lemma ActionsKeepLedgerOk(before: seq<Coupon>, after: seq<Coupon>)
    requires LedgerOk(before) && |after| == |before|
    requires forall k :: 0 <= k < |before| ==>
      after[k] == before[k] || (CouponOk(after[k]) && OnlyLetsGo(before[k], after[k]))
    ensures LedgerOk(after)
  {
    forall k | 0 <= k < |before| ensures OnlyLetsGo(before[k], after[k]) {
    }
    LettingGoKeepsOneHolder(before, after);
  }

  lemma ActOnKeepsLedgerOk(coupons: seq<Coupon>, id: nat, action: Action)
    requires LedgerOk(coupons) && id < |coupons| && !action.DoSettle?
    ensures LedgerOk(coupons[id := Act(coupons[id], action)])
  {
    ActKeepsOk(coupons[id], action);
    ActOnlyLetsGo(coupons[id], action);
    ActionsKeepLedgerOk(coupons, coupons[id := Act(coupons[id], action)]);
  }

  lemma ExpiryKeepsCoupon(c: Coupon, now: int, ttl: int, boards: Boards)
    requires CouponOk(c)
    ensures CouponOk(ExpireDue(c, now, ttl, boards)) && OnlyLetsGo(c, ExpireDue(c, now, ttl, boards))
  {
    ActKeepsOk(c, DoExpireDue(now, ttl, boards));
    ActOnlyLetsGo(c, DoExpireDue(now, ttl, boards));
  }

  lemma SweepKeepsLedgerOk(coupons: seq<Coupon>, now: int, ttl: int, boards: Boards)
    requires LedgerOk(coupons)
    ensures LedgerOk(Swept(coupons, |coupons|, now, ttl, boards))
  {
    var after := Swept(coupons, |coupons|, now, ttl, boards);
    forall k | 0 <= k < |coupons| ensures CouponOk(after[k]) && OnlyLetsGo(coupons[k], after[k]) {
      ExpiryKeepsCoupon(coupons[k], now, ttl, boards);
    }
    ActionsKeepLedgerOk(coupons, after);
  }

  lemma WithdrawalKeepsCoupon(c: Coupon)
    requires CouponOk(c)
    ensures CouponOk(Withdrawn(c)) && OnlyLetsGo(c, Withdrawn(c))
  {
    ActKeepsOk(c, DoWithdraw);
    ActOnlyLetsGo(c, DoWithdraw);
  }

  lemma WithdrawKeepsLedgerOk(coupons: seq<Coupon>, ids: set<int>)
    requires LedgerOk(coupons)
    ensures LedgerOk(WithdrawnAll(coupons, ids))
  {
    var after := WithdrawnAll(coupons, ids);
    forall k | 0 <= k < |coupons| && k in ids ensures CouponOk(after[k]) && OnlyLetsGo(coupons[k], after[k]) {
      WithdrawalKeepsCoupon(coupons[k]);
    }
    ActionsKeepLedgerOk(coupons, after);
  }

  lemma PassKeepsCoupons(coupons: seq<Coupon>, results: Results, now: int)
    requires forall k :: 0 <= k < |coupons| ==> CouponOk(coupons[k])
    ensures forall k :: 0 <= k < |coupons| ==> CouponOk(WholePass(coupons, results, now)[k])
  {
    forall k | 0 <= k < |coupons| ensures CouponOk(WholePass(coupons, results, now)[k]) {
      SettlePreservesOk(coupons[k], results, now);
    }
  }

  lemma CommittedPassIsOk(coupons: seq<Coupon>, results: Results, now: int)
    requires LedgerOk(coupons) && !RolledBack(coupons, results, now)
    ensures LedgerOk(WholePass(coupons, results, now))
  {
    PassKeepsCoupons(coupons, results, now);
    assert OneHolder(WholePass(coupons, results, now)) by {
      PassKeepsRows(coupons, results, now);
      NoClashKeepsOneHolder(coupons, WholePass(coupons, results, now));
    }
  }

  lemma PassKeepsLedgerOk(coupons: seq<Coupon>, results: Results, now: int)
    requires LedgerOk(coupons)
    ensures LedgerOk(LedgerNext(coupons, SettlePass(results, now)))
  {
    var after := LedgerNext(coupons, SettlePass(results, now));
    if after != coupons {
      assert after == WholePass(coupons, results, now);
      CommittedPassIsOk(coupons, results, now);
    }
  }

  lemma OpKeepsLedgerOk(coupons: seq<Coupon>, op: LedgerOp)
    requires LedgerOk(coupons)
    ensures LedgerOk(LedgerNext(coupons, op))
  {
    match op
    case ActOn(id, action) => if id < |coupons| && !action.DoSettle? { ActOnKeepsLedgerOk(coupons, id, action); }
    case ExpireEverything(now, ttl, boards) => SweepKeepsLedgerOk(coupons, now, ttl, boards);
    case WithdrawThese(ids) => WithdrawKeepsLedgerOk(coupons, ids);
    case ProposeSlips(strategy, slips, stake, floor, at) =>
      if Stored(coupons, strategy, slips, stake, floor, at).Some? {
        StoredKeepsLedgerOk(coupons, strategy, slips, stake, floor, at);
      }
    case BetSandbox(strategy, slip, stake, at) =>
      if Tried(coupons, Sandbox, strategy, slip, stake, 0, at).Some? {
        TriedKeepsLedgerOk(coupons, Sandbox, strategy, slip, stake, 0, at);
      }
    case SettlePass(results, now) => PassKeepsLedgerOk(coupons, results, now);
  }

  /** Every ledger any run can reach: all coupons in order, every match held at most once. */
  lemma {:induction false} EveryLedgerIsOk(ops: seq<LedgerOp>)
    ensures LedgerOk(LedgerAfter(ops))
  {
    if ops != [] {
      EveryLedgerIsOk(ops[..|ops| - 1]);
      OpKeepsLedgerOk(LedgerAfter(ops[..|ops| - 1]), ops[|ops| - 1]);
    }
  }

  // ------------------------------------------------- placed at the proposed score

  /** Step `k` of the run placed coupon `id`, and could. */
  ghost predicate PlacedAt(ops: seq<LedgerOp>, id: nat, k: nat) {
    && k < |ops| && ops[k].ActOn? && ops[k].id == id && ops[k].action.DoPlace?
    && var before := LedgerAfter(ops[..k]);
       id < |before| && CanBePlaced(before[id], ops[k].action.now, ops[k].action.ttl, ops[k].action.boards)
  }

  /** A recommendation that is or was in play. */
  predicate Played(c: Coupon) { c.mode == Recommendation && (c.status == Placed || Settled(c.status)) }

  lemma OtherActionsPlayNothing(c: Coupon, a: Action)
    requires CouponOk(c) && Played(Act(c, a)) && !a.DoPlace? && !a.DoSettle? && !a.DoHandSettle?
    ensures Played(c)
  {
  }

  lemma SettlingPlaysNothing(c: Coupon, a: Action)
    requires CouponOk(c) && Played(Act(c, a)) && (a.DoSettle? || a.DoHandSettle?)
    ensures Played(c)
  {
  }

  /** Only placing brings a recommendation into play. */
  lemma OnlyPlacingPlays(c: Coupon, a: Action)
    requires CouponOk(c) && Played(Act(c, a)) && !Played(c)
    ensures a.DoPlace? && CanBePlaced(c, a.now, a.ttl, a.boards)
  {
    if a.DoPlace? {
      PlacedIff(c, a.now, a.ttl, a.boards);
    } else if a.DoSettle? || a.DoHandSettle? {
      SettlingPlaysNothing(c, a);
    } else {
      OtherActionsPlayNothing(c, a);
    }
  }

  lemma {:induction false} StoringAddsProposals(coupons: seq<Coupon>, strategy: int, slips: seq<Slip>,
                                                stake: int, floor: int, at: int)
    requires Stored(coupons, strategy, slips, stake, floor, at).Some?
    ensures var after := Stored(coupons, strategy, slips, stake, floor, at).value;
      coupons <= after && forall k :: |coupons| <= k < |after| ==> !Played(after[k])
  {
    if slips != [] { StoringAddsProposals(coupons, strategy, slips[..|slips| - 1], stake, floor, at); }
  }

  lemma OnlyPlacingPlaysInLedger(coupons: seq<Coupon>, op: LedgerOp, id: nat)
    requires LedgerOk(coupons) && id < |LedgerNext(coupons, op)| && Played(LedgerNext(coupons, op)[id])
    ensures id < |coupons|
    ensures Played(coupons[id])
      || (op.ActOn? && op.id == id && op.action.DoPlace?
          && CanBePlaced(coupons[id], op.action.now, op.action.ttl, op.action.boards))
  {
    match op
    case ActOn(k, action) =>
      if k == id && k < |coupons| && !Played(coupons[k]) { OnlyPlacingPlays(coupons[k], action); }
    case ExpireEverything(now, ttl, boards) =>
    case WithdrawThese(ids) =>
    case ProposeSlips(strategy, slips, stake, floor, at) =>
      if Stored(coupons, strategy, slips, stake, floor, at).Some? {
        StoringAddsProposals(coupons, strategy, slips, stake, floor, at);
      }
    case BetSandbox(strategy, slip, stake, at) =>
    case SettlePass(results, now) => PassBringsNothingIntoPlay(coupons[id], results, now);
  }

  lemma PassBringsNothingIntoPlay(c: Coupon, results: Results, now: int)
    requires c.mode == Recommendation ==> c.status != Open
    ensures Played(SettledCoupon(c, results, now)) ==> Played(c)
  {
  }

  /**
    Over every run: a recommendation in play or settled was placed by a step
    that found it accepted or corrected, in time, and every leg it then had on
    a board with the proposed goals in the proposed period.
   */
  lemma {:induction false} PlayedWasPlacedAtItsScore(ops: seq<LedgerOp>, id: nat) returns (k: nat)
    requires id < |LedgerAfter(ops)| && Played(LedgerAfter(ops)[id])
    ensures PlacedAt(ops, id, k)
  {
    var n := |ops| - 1;
    EveryLedgerIsOk(ops[..n]);
    OnlyPlacingPlaysInLedger(LedgerAfter(ops[..n]), ops[n], id);
    if Played(LedgerAfter(ops[..n])[id]) {
      k := PlayedWasPlacedAtItsScore(ops[..n], id);
      assert ops[..n][..k] == ops[..k];
    } else {
      k := n;
    }
  }

  // --------------------------------------------------- a run whose pass is refused

  const TTL := 180_000_000

  function SampleSlip(): Slip { Slip([(7, Domain.Regulation, 1, 1500, (1, 0))]) }

  predicate IsBoard(boards: Boards) { boards == map[7 := BoardRow(Domain.H2, Some((1, 0)))] }

  lemma LedgerMore(ops: seq<LedgerOp>, op: LedgerOp)
    ensures LedgerAfter(ops + [op]) == LedgerNext(LedgerAfter(ops), op)
  {
    assert (ops + [op])[..|ops|] == ops;
  }

  /** A single-leg recommendation on match 7. */
  predicate OnSeven(c: Coupon, status: CouponStatus) {
    c.mode == Recommendation && c.status == status && |c.legs| == 1 && c.legs[0].fixture == 7
  }

  lemma SampleBorn(slip: Slip, at: int) returns (c: Coupon)
    requires slip == SampleSlip()
    ensures Born(Recommendation, 1, slip, 2100, 1600, at) == Some(c) && OnSeven(c, Proposed) && c.createdAt == at
    ensures c.legs[0] == Leg(7, Domain.Regulation, 1, 1500, (1, 0), LegOpen, [])
  {
    var odds := SlipOdds(slip);
    assert odds == [1500] && odds[..0] == [];
    assert Domain.Product([]) == 1.0;
    c := Born(Recommendation, 1, slip, 2100, 1600, at).value;
  }

  lemma SampleStored(coupons: seq<Coupon>, slip: Slip, at: int) returns (c: Coupon)
    requires slip == SampleSlip() && !Taken(coupons, Slot(None, 7))
    ensures Stored(coupons, 1, [slip], 2100, 1600, at) == Some(coupons + [c])
    ensures OnSeven(c, Proposed) && c.createdAt == at
    ensures c.legs[0] == Leg(7, Domain.Regulation, 1, 1500, (1, 0), LegOpen, [])
  {
    c := SampleBorn(slip, at);
    assert [slip][..0] == [] && Stored(coupons, 1, [], 2100, 1600, at) == Some(coupons);
    assert !Repeated(c, 0) && FateUpTo(coupons, c, 0) == Fits;
    assert FateUpTo(coupons, c, 1) == Fits;
  }

  /** What accepting and placing at once make of a fresh proposal whose match has not moved. */
  lemma AcceptedAndPlaced(c: Coupon, boards: Boards) returns (accepted: Coupon, placed: Coupon)
    requires OnSeven(c, Proposed) && IsBoard(boards)
    requires c.legs[0] == Leg(7, Domain.Regulation, 1, 1500, (1, 0), LegOpen, [])
    ensures accepted == Act(c, DoAccept(c.createdAt, TTL))
    ensures placed == Act(accepted, DoPlace(c.createdAt, TTL, boards))
    ensures OnSeven(placed, Placed) && placed.legs == c.legs
  {
    accepted := Act(c, DoAccept(c.createdAt, TTL));
    assert accepted.status == Accepted && accepted.legs == c.legs;
    assert !ScoreChanged(accepted.legs, boards);
    placed := Act(accepted, DoPlace(c.createdAt, TTL, boards));
  }

  function PlaceOnSeven(ops: seq<LedgerOp>, id: nat, slip: Slip, at: int, boards: Boards): seq<LedgerOp> {
    ops + [ProposeSlips(1, [slip], 2100, 1600, at)] + [ActOn(id, DoAccept(at, TTL))]
    + [ActOn(id, DoPlace(at, TTL, boards))]
  }

  /** A recommendation on a free match is proposed, accepted and placed. */
  lemma PlacedOnSeven(ops: seq<LedgerOp>, coupons: seq<Coupon>, slip: Slip, at: int, boards: Boards)
    returns (placed: Coupon)
    requires LedgerAfter(ops) == coupons && !Taken(coupons, Slot(None, 7))
    requires slip == SampleSlip() && IsBoard(boards)
    ensures LedgerAfter(PlaceOnSeven(ops, |coupons|, slip, at, boards)) == coupons + [placed]
    ensures OnSeven(placed, Placed)
    ensures placed.legs[0] == Leg(7, Domain.Regulation, 1, 1500, (1, 0), LegOpen, [])
  {
    var n := |coupons|;
    var c := SampleStored(coupons, slip, at);
    var accepted;
    accepted, placed := AcceptedAndPlaced(c, boards);
    var o1 := ops + [ProposeSlips(1, [slip], 2100, 1600, at)];
    LedgerMore(ops, ProposeSlips(1, [slip], 2100, 1600, at));
    LedgerMore(o1, ActOn(n, DoAccept(at, TTL)));
    LedgerMore(o1 + [ActOn(n, DoAccept(at, TTL))], ActOn(n, DoPlace(at, TTL, boards)));
    assert (coupons + [c])[n := accepted] == coupons + [accepted];
    assert (coupons + [accepted])[n := placed] == coupons + [placed];
  }

  /** The match is abandoned: the placed coupon goes void and lets go of it. */
  lemma VoidedOnSeven(c: Coupon, results: Results, now: int) returns (v: Coupon)
    requires OnSeven(c, Placed) && c.legs[0] == Leg(7, Domain.Regulation, 1, 1500, (1, 0), LegOpen, [])
    requires 7 in results && results[7].status == Domain.ABD
    ensures LedgerNext([c], SettlePass(results, now)) == [v]
    ensures OnSeven(v, Void) && v.legs[0].status == LegVoid && !Taken([v], Slot(None, 7))
  {
    v := SettledCoupon(c, results, now);
    var leg := SettledLeg(c.legs[0], results, now);
    assert leg.status == LegVoid;
    assert SettledLegs(c.legs, results, now) == [leg];
    assert Outcomes([leg]) == [Domain.Void];
    PassKeepsRows([c], results, now);
    assert WholePass([c], results, now) == [v];
    NothingClaimed(c, v);
  }

  lemma NothingClaimed(c: Coupon, v: Coupon)
    requires SameLegs(c, v) && |c.legs| == 1 && !Holding(v.legs[0].status)
    ensures SameRows([c], [v]) && !Clashes([c], [v])
  {
  }

  /**
    A ledger the program can reach and a pass it cannot make: a recommendation
    is placed, its match abandoned, another one is placed on the resumed match,
    and then the match is reported finished without a score.
   */
  lemma ManualCorrectionCanCollide(slip: Slip, boards: Boards, abandoned: Results, late: Results)
    requires slip == SampleSlip() && IsBoard(boards)
    requires 7 in abandoned && abandoned[7].status == Domain.ABD
    requires 7 in late && NoFinalScoreAt(late[7], 40)
    ensures var first := PlaceOnSeven([], 0, slip, 10, boards) + [SettlePass(abandoned, 20)];
      var ops := PlaceOnSeven(first, 1, slip, 30, boards);
      LedgerOk(LedgerAfter(ops)) && RolledBack(LedgerAfter(ops), late, 40)
  {
    var o1 := PlaceOnSeven([], 0, slip, 10, boards);
    var o2 := o1 + [SettlePass(abandoned, 20)];
    var a := PlacedOnSeven([], [], slip, 10, boards);
    var v := VoidedOnSeven(a, abandoned, 20);
    assert [] + [a] == [a];
    LedgerMore(o1, SettlePass(abandoned, 20));
    var b := PlacedOnSeven(o2, [v], slip, 30, boards);
    assert [v] + [b] == [v, b];
    VoidAndPlacedCollide(v, b, late, 40);
    EveryLedgerIsOk(PlaceOnSeven(o2, 1, slip, 30, boards));
  }

  class Ledger {
    var coupons: seq<Coupon>

    constructor ()
      ensures coupons == []
    {
      coupons := [];
    }

    method Move(id: nat, status: CouponStatus, source: Source)
      requires id < |coupons|
      modifies this
      ensures coupons == old(coupons)[id := Moved(old(coupons)[id], status, source)]
    {
      var c := coupons[id];
      if c.status == status && status != Proposed { return; }
      var event := CouponEvent(Some(c.status), status, source);
      coupons := coupons[id := c.(status := status, moves := c.moves + [event])];
    }

    method ReleaseLegs(id: nat)
      requires id < |coupons|
      modifies this
      ensures coupons == old(coupons)[id := old(coupons)[id].(legs := Released(old(coupons)[id].legs))]
    {
      var c := coupons[id];
      var legs := c.legs;
      for i := 0 to |legs|
        invariant |legs| == |c.legs|
        invariant forall k :: 0 <= k < |legs| ==> legs[k] == if k < i then ReleasedLeg(c.legs[k]) else c.legs[k]
      {
        if legs[i].status == LegOpen {
          legs := legs[i := legs[i].(status := Removed)];
        }
      }
      assert legs == Released(c.legs);
      coupons := coupons[id := c.(legs := legs)];
    }

    method ExpireLocked(id: nat, source: Source)
      requires id < |coupons|
      modifies this
      ensures coupons == old(coupons)[id := ExpiredCoupon(old(coupons)[id], source)]
    {
      ReleaseLegs(id);
      Move(id, Expired, source);
    }

    method LockLive(id: nat, now: int, ttl: int) returns (refusal: Option<Reply>)
      requires id < |coupons|
      modifies this
      ensures |coupons| == |old(coupons)|
      ensures (coupons[id], refusal) == Gate(old(coupons)[id], now, ttl)
      ensures coupons == old(coupons)[id := coupons[id]]
    {
      var c := coupons[id];
      if c.mode != Recommendation { return Some(Refused(NotRecommendation, false)); }
      if c.status == Expired { return Some(Refused(ExpiredError, false)); }
      if now - c.createdAt >= ttl {
        if Live(c.status) { ExpireLocked(id, Expire); }
        return Some(Refused(ExpiredError, true));
      }
      refusal := None;
    }

    method AcceptCoupon(id: nat, now: int, ttl: int) returns (reply: Reply)
      modifies this
      ensures |coupons| == |old(coupons)|
      ensures if id < |old(coupons)|
        then reply == Accept(old(coupons)[id], now, ttl).1 else reply == Refused(Missing, false)
      ensures coupons == LedgerNext(old(coupons), ActOn(id, DoAccept(now, ttl)))
    {
      if id >= |coupons| { return Refused(Missing, false); }
      var refusal := LockLive(id, now, ttl);
      if refusal.Some? { return refusal.value; }
      if coupons[id].status != Proposed { return Refused(NotProposed, false); }
      Move(id, Accepted, Operator);
      reply := Done;
    }

    method RejectCoupon(id: nat, now: int, ttl: int) returns (reply: Reply)
      modifies this
      ensures |coupons| == |old(coupons)|
      ensures if id < |old(coupons)|
        then reply == Reject(old(coupons)[id], now, ttl).1 else reply == Refused(Missing, false)
      ensures coupons == LedgerNext(old(coupons), ActOn(id, DoReject(now, ttl)))
    {
      if id >= |coupons| { return Refused(Missing, false); }
      var refusal := LockLive(id, now, ttl);
      if refusal.Some? { return refusal.value; }
      if !Live(coupons[id].status) { return Refused(ClosedError, false); }
      ReleaseLegs(id);
      Move(id, Rejected, Operator);
      reply := Done;
    }

    method NotPlacedCoupon(id: nat) returns (reply: Reply)
      modifies this
      ensures |coupons| == |old(coupons)|
      ensures if id < |old(coupons)|
        then reply == MarkNotPlaced(old(coupons)[id]).1 else reply == Refused(Missing, false)
      ensures coupons == LedgerNext(old(coupons), ActOn(id, DoNotPlaced))
    {
      if id >= |coupons| { return Refused(Missing, false); }
      if coupons[id].mode != Recommendation || !Confirmable(coupons[id].status) {
        return Refused(NotConfirmable, false);
      }
      ReleaseLegs(id);
      Move(id, NotPlaced, Operator);
      reply := Done;
    }

    /** First pass over the legs: what each becomes, and the odds of those that stay. */
    static method PriceChanges(legs: seq<Leg>, odds: map<int, int>, remove: set<int>)
      returns (bad: bool, priced: seq<int>, next: seq<Leg>)
      ensures bad <==> AnyBadlyPriced(legs, odds, remove)
      ensures !bad ==> next == ModifiedLegs(legs, odds, remove) && priced == ActiveOdds(next)
    {
      priced, next := [], [];
      for i := 0 to |legs|
        invariant |next| == i
        invariant forall k :: 0 <= k < i ==> !BadlyPriced(legs[k], odds, remove)
        invariant forall k :: 0 <= k < i ==> next[k] == ModifiedLeg(legs[k], odds, remove)
        invariant priced == ActiveOdds(next)
      {
        var leg := legs[i];
        ghost var before := next;
        if leg.status == Removed {
          next := next + [leg];
        } else if leg.fixture in remove {
          next := next + [leg.(status := Removed)];
        } else {
          if leg.fixture !in odds || odds[leg.fixture] <= 1000 {
            assert BadlyPriced(legs[i], odds, remove);
            return true, priced, next;
          }
          next, priced := next + [leg.(odd := odds[leg.fixture])], priced + [odds[leg.fixture]];
        }
        assert next[..i] == before;
      }
      bad := false;
      assert next == ModifiedLegs(legs, odds, remove);
    }

    /** The operator's stake may carry fractions of a cent, which are refused. */
    method ModifyCoupon(id: nat, now: int, ttl: int, stake: real, odds: map<int, int>, remove: set<int>)
      returns (reply: Reply)
      modifies this
      ensures |coupons| == |old(coupons)|
      ensures var cents := stake.Floor;
        if stake <= 0.0 || stake != cents as real then coupons == old(coupons) && reply == Refused(StakeError, false)
        else
          && coupons == LedgerNext(old(coupons), ActOn(id, DoModify(now, ttl, cents, odds, remove)))
          && reply == if id < |old(coupons)| then Modify(old(coupons)[id], now, ttl, cents, odds, remove).1
                      else Refused(Missing, false)
    {
      var cents := stake.Floor;
      if stake <= 0.0 || stake != cents as real { return Refused(StakeError, false); }
      if id >= |coupons| { return Refused(Missing, false); }
      var refusal := LockLive(id, now, ttl);
      if refusal.Some? { return refusal.value; }
      var c := coupons[id];
      if !Live(c.status) { return Refused(ClosedError, false); }
      var bad, priced, next := PriceChanges(c.legs, odds, remove);
      if bad { return Refused(OddError, false); }
      if priced == [] { return Refused(EmptyError, false); }
      var combined := Domain.CombineOdds(priced);
      if combined.None? { return Refused(EmptyError, false); }
      var proposed := if c.proposedStake.None? then Some(c.stake) else c.proposedStake;
      coupons := coupons[id :=
        c.(legs := next, stake := cents, proposedStake := proposed, combinedOdd := combined.value)];
      Move(id, Modified, Operator);
      reply := Below(combined.value < c.floor);
    }

    static method AnyScoreChanged(legs: seq<Leg>, boards: Boards) returns (changed: bool)
      ensures changed <==> ScoreChanged(legs, boards)
      ensures changed <==> !AllStillAt(legs, boards)
    {
      ChangedUnlessStillAt(legs, boards);
      for i := 0 to |legs|
        invariant forall k :: 0 <= k < i ==> legs[k].status == Removed || !LegScoreChanged(legs[k], boards)
      {
        if legs[i].status != Removed && LegScoreChanged(legs[i], boards) { return true; }
      }
      changed := false;
    }

    method PlaceCoupon(id: nat, now: int, ttl: int, boards: Boards) returns (reply: Reply)
      modifies this
      ensures |coupons| == |old(coupons)|
      ensures if id < |old(coupons)|
        then reply == Place(old(coupons)[id], now, ttl, boards).1 else reply == Refused(Missing, false)
      ensures reply == Done <==> id < |old(coupons)| && CanBePlaced(old(coupons)[id], now, ttl, boards)
      ensures coupons == LedgerNext(old(coupons), ActOn(id, DoPlace(now, ttl, boards)))
    {
      if id >= |coupons| { return Refused(Missing, false); }
      var c := coupons[id];
      PlacedIff(c, now, ttl, boards);
      if c.mode != Recommendation { return Refused(NotRecommendation, false); }
      if c.status == Expired { return Refused(ExpiredError, false); }
      if !Confirmable(c.status) { return Refused(NotConfirmable, false); }
      if now - c.createdAt >= ttl {
        ExpireLocked(id, Expire);
        return Refused(ExpiredError, true);
      }
      var changed := AnyScoreChanged(c.legs, boards);
      if changed {
        ExpireLocked(id, Expire);
        return Refused(ExpiredError, true);
      }
      coupons := coupons[id := c.(placedAt := Some(now))];
      Move(id, Placed, Operator);
      reply := Done;
    }

    /** Whether `expire_due` takes this coupon. */
    static method IsDue(c: Coupon, now: int, ttl: int, boards: Boards) returns (due: bool)
      ensures due <==> ExpireDue(c, now, ttl, boards) != c
    {
      if c.mode != Recommendation || !Live(c.status) { return false; }
      if now - c.createdAt >= ttl { return true; }
      due := AnyScoreChanged(c.legs, boards);
    }

    /** Expires every due recommendation and counts them. */
    method ExpireAllDue(now: int, ttl: int, boards: Boards) returns (expired: nat)
      modifies this
      ensures coupons == LedgerNext(old(coupons), ExpireEverything(now, ttl, boards))
      ensures |coupons| == |old(coupons)| && expired == |Changed(old(coupons), coupons)|
    {
      ghost var start := coupons;
      expired := 0;
      SweptStart(start, now, ttl, boards);
      assert Changed(start, start) == {};
      for i := 0 to |coupons|
        invariant coupons == Swept(start, i, now, ttl, boards)
        invariant expired == |Changed(start, coupons)|
      {
        SweptNext(start, i, now, ttl, boards);
        ChangeOneMore(start, coupons, i, ExpireDue(coupons[i], now, ttl, boards));
        var due := IsDue(coupons[i], now, ttl, boards);
        if due {
          ExpireLocked(i, Expire);
          expired := expired + 1;
        }
      }
    }

    /** Withdrawing a strategy expires each of its live recommendations. */
    method WithdrawAll(ids: set<int>)
      modifies this
      ensures coupons == LedgerNext(old(coupons), WithdrawThese(ids))
    {
      for i := 0 to |coupons|
        invariant |coupons| == |old(coupons)|
        invariant forall k :: 0 <= k < |coupons| ==>
          coupons[k] == if k < i && k in ids then Withdrawn(old(coupons)[k]) else old(coupons)[k]
      {
        if i in ids && coupons[i].mode == Recommendation && Live(coupons[i].status) {
          ExpireLocked(i, Withdraw);
        }
      }
    }

    /** One proposed coupon per slip; a slip that raises undoes the whole call. */
    method PlaceProposed(strategy: int, slips: seq<Slip>, stake: int, floor: int, createdAt: int)
      returns (placed: Option<seq<nat>>)
      modifies this
      ensures placed.Some? <==> Stored(old(coupons), strategy, slips, stake, floor, createdAt).Some?
      ensures coupons == LedgerNext(old(coupons), ProposeSlips(strategy, slips, stake, floor, createdAt))
      ensures placed.Some? ==> |old(coupons)| + |placed.value| == |coupons|
      ensures placed.Some? ==> forall k :: 0 <= k < |placed.value| ==> placed.value[k] == |old(coupons)| + k
    {
      var start := coupons;
      var ids: seq<nat> := [];
      for i := 0 to |slips|
        invariant Stored(start, strategy, slips[..i], stake, floor, createdAt) == Some(coupons)
        invariant |start| + |ids| == |coupons|
        invariant forall k :: 0 <= k < |ids| ==> ids[k] == |start| + k
      {
        StoredNext(start, strategy, slips, i, stake, floor, createdAt);
        var id, ok := StoreSlip(Recommendation, strategy, slips[i], stake, floor, createdAt);
        if !ok {
          StoringFailsForGood(start, strategy, slips, i + 1, stake, floor, createdAt);
          coupons := start;
          return None;
        }
        if id.Some? { ids := ids + [id.value]; }
      }
      assert slips[..|slips|] == slips;
      placed := Some(ids);
    }

    /** One slip in a savepoint: stored, skipped on a taken match, or not `ok` where pricing or storing raises. */
    method StoreSlip(mode: Mode, strategy: int, s: Slip, stake: int, floor: int, createdAt: int)
      returns (id: Option<nat>, ok: bool)
      modifies this
      ensures ok <==> Tried(old(coupons), mode, strategy, s, stake, floor, createdAt).Some?
      ensures Some(coupons) ==
        if ok then Tried(old(coupons), mode, strategy, s, stake, floor, createdAt) else Some(old(coupons))
      ensures |coupons| == |old(coupons)| + if id.Some? then 1 else 0
      ensures id.Some? ==> id.value == |old(coupons)|
    {
      id, ok := None, false;
      var odd := Domain.CombineOdds(SlipOdds(s));
      if odd.None? { return; }
      var coupon := if mode == Sandbox
        then Coupon(Sandbox, strategy, Open, stake, None, odd.value, floor, createdAt, Some(createdAt),
                    SlipLegs(s), [], [])
        else Coupon(Recommendation, strategy, Proposed, stake, Some(stake), odd.value, floor, createdAt, None,
                    SlipLegs(s), [CouponEvent(None, Proposed, Operator)], []);
      var fate := InsertLegs(coupons, coupon);
      if fate == Repeats { return; }
      ok := true;
      if fate == Fits {
        id := Some(|coupons|);
        coupons := coupons + [coupon];
      }
    }

    // -------------------------------------------------------- settlement

    /** One row of the pass: a leg that changes is rewritten and logged. */
    method SettleRow(row: Row, results: Results, now: int) returns (touched: bool)
      requires InRange(coupons, row)
      modifies this
      ensures coupons == AfterRow(old(coupons), row, results, now)
      ensures touched <==> RowTouches(old(coupons), row, results, now)
    {
      var c := coupons[row.coupon];
      var leg := c.legs[row.leg];
      UntouchedRow(coupons, row, results, now);
      if leg.status == Removed || leg.fixture !in results { return false; }
      var fixture := results[leg.fixture];
      var verdict := VerdictFor(leg, fixture, now);
      if verdict.None? || verdict.value == leg.status { return false; }
      if leg.status != LegOpen && !InsideCorrectionWindow(fixture, now) { return false; }
      var source := if leg.status == LegOpen then Source.Settle else Correction;
      var event := LegEvent(leg.status, verdict.value, source);
      var next := leg.(status := verdict.value, log := leg.log + [event]);
      coupons := coupons[row.coupon := c.(legs := c.legs[row.leg := next])];
      touched := true;
    }

    method SettleLegRows(rows: seq<Row>, results: Results, now: int) returns (touched: set<nat>)
      requires forall r :: 0 <= r < |rows| ==> InRange(coupons, rows[r])
      modifies this
      ensures coupons == AfterRows(old(coupons), rows, results, now)
      ensures touched == Touched(old(coupons), rows, results, now)
    {
      touched := {};
      for r := 0 to |rows|
        invariant coupons == AfterRows(old(coupons), rows[..r], results, now)
        invariant touched == Touched(old(coupons), rows[..r], results, now)
      {
        assert rows[..r + 1][..r] == rows[..r];
        RowsKeepShape(old(coupons), rows[..r], results, now);
        var hit := SettleRow(rows[r], results, now);
        if hit { touched := touched + {rows[r].coupon}; }
      }
      assert rows[..|rows|] == rows;
    }

    method RefreshCoupon(id: nat) returns (changed: bool)
      requires id < |coupons| && coupons[id].legs != []
      modifies this
      ensures coupons == old(coupons)[id := RefreshedCoupon(old(coupons)[id])]
      ensures changed <==> RefreshedCoupon(old(coupons)[id]) != old(coupons)[id]
    {
      var c := coupons[id];
      var result := Domain.SettleCoupon(Outcomes(c.legs));
      if result !in {Domain.Won, Domain.Lost, Domain.Void} { return false; }
      var odd := c.combinedOdd;
      if result == Domain.Won {
        var active := Domain.CombineOdds(WonOdds(c.legs));
        if active.Some? { odd := active.value; }
      }
      if c.status == AsStatus(result) && c.combinedOdd == odd { return false; }
      var source := if c.status in {Open, Placed} then Source.Settle else Correction;
      var event := CouponEvent(Some(c.status), AsStatus(result), source);
      coupons := coupons[id := c.(status := AsStatus(result), combinedOdd := odd, verdicts := c.verdicts + [event])];
      assert |coupons[id].verdicts| == |c.verdicts| + 1;
      changed := true;
    }

    /** Refreshes each touched coupon once, in any order, and counts those that changed. */
    method RefreshTouched(touched: set<nat>) returns (changed: nat)
      requires forall i :: i in touched ==> i < |coupons|
      requires forall i :: 0 <= i < |coupons| ==> coupons[i].legs != []
      modifies this
      ensures coupons == Refreshed(old(coupons), touched)
      ensures changed == |Rewritten(old(coupons), touched)|
    {
      ghost var start := coupons;
      var todo := touched;
      changed := 0;
      RefreshStarts(start, touched);
      while todo != {}
        invariant todo <= touched
        invariant coupons == Refreshed(start, touched - todo)
        invariant changed == |Rewritten(start, touched - todo)|
        decreases |todo|
      {
        var id :| id in todo;
        RefreshNext(start, touched, todo, id);
        var hit := RefreshCoupon(id);
        if hit { changed := changed + 1; }
        todo := todo - {id};
      }
    }

    /**
      The settlement pass: leg rows in the order the query returned them, a
      flush of the legs in the order of their keys, then every touched coupon in
      any order. The outcome depends on neither order. A leg that would take
      back a match somebody holds at its turn in the flush raises, and then
      nothing of the pass is left.
     */
    method SettleFinished(rows: seq<Row>, results: Results, now: int) returns (done: bool, changed: nat)
      requires QueryRows(coupons, rows, results)
      requires forall i :: 0 <= i < |coupons| ==> coupons[i].legs != []
      modifies this
      ensures done <==> !RolledBack(old(coupons), results, now)
      ensures coupons == LedgerNext(old(coupons), SettlePass(results, now))
      ensures changed == |Reverdicted(old(coupons), coupons)|
    {
      RowsThenRefreshIsThePass(coupons, rows, results, now);
      var start := coupons;
      var touched := SettleLegRows(rows, results, now);
      SameLegsSameClashes(start, coupons, rows, results, now);
      if Clashes(start, coupons) {
        coupons := start;
        return false, 0;
      }
      done := true;
      changed := RefreshTouched(touched);
    }

    /** An operator's verdict on one leg; the coupon row itself is left alone. */
    method ManualSettle(id: nat, leg: nat, outcome: LegStatus) returns (done: bool)
      modifies this
      ensures done <==> id < |old(coupons)| && HandSettled(old(coupons)[id], leg, outcome).Some?
      ensures coupons == LedgerNext(old(coupons), ActOn(id, DoHandSettle(leg, outcome)))
    {
      if outcome !in {LegWon, LegLost, LegVoid} || id >= |coupons| { return false; }
      var c := coupons[id];
      if leg >= |c.legs| || c.legs[leg].status != LegManual { return false; }
      var l := c.legs[leg];
      var event := LegEvent(LegManual, outcome, ByHand);
      coupons := coupons[id := c.(legs := c.legs[leg := l.(status := outcome, log := l.log + [event])])];
      done := true;
    }
  }
}
