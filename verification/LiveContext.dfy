/**
  One live-context refresh: batched detail fetches for live and finishing
  matches, then one-shot calls, all inside the tick's call cap; and the
  scheduler slot that draws that cap from the credit and refunds the rest.

  What the clock, the quota, the queue and the vendor answer is a script.
 */
module LiveContext {
  import opened Prelude
  import opened Credit
  import Planner

  /** `open` is what `_Spend.left()` reads besides the counter: time and quota are still there. */
  datatype DetailTurn = DetailTurn(id: int, open: bool, due: bool, concurrency: int, oks: nat)

  /** One queue probe: whether a task was found, and whether serving it used HTTP. */
  datatype DrainTurn = DrainTurn(open: bool, found: bool, usedHttp: bool)

  datatype RefreshScript = RefreshScript(
    live: seq<DetailTurn>,
    liveOpen: bool,
    liveLastOks: nat,
    finishing: seq<DetailTurn>,
    finishingOpen: bool,
    finishingLastOks: nat,
    drains: seq<(bool, seq<DrainTurn>)>)

  class Spend {
    var calls: int
    const maxCalls: int

    constructor (maxCalls: int)
      ensures calls == 0 && this.maxCalls == maxCalls
    {
      calls := 0;
      this.maxCalls := maxCalls;
    }

    predicate Left(open: bool)
      reads this
    {
      open && calls < maxCalls
    }

    function Slots(): int
      reads this
    {
      Max(0, maxCalls - calls)
    }

    method Take()
      modifies this
      ensures calls == old(calls) + 1
    {
      calls := calls + 1;
    }
  }

  function Concurrency(value: int): (r: int)
    ensures r > 0
  {
    if value > 0 then value else 2
  }

  function DueIds(turns: seq<DetailTurn>): seq<int> {
    if turns == [] then []
    else
      var last := turns[|turns| - 1];
      DueIds(turns[..|turns| - 1]) + if last.due then [last.id] else []
  }

  lemma DueNext(turns: seq<DetailTurn>, i: nat)
    requires i < |turns|
    ensures DueIds(turns[..i + 1]) == DueIds(turns[..i]) + if turns[i].due then [turns[i].id] else []
  {
    assert turns[..i + 1][..i] == turns[..i];
  }

  /** A whole batch goes out; every success is one call, a failure is none. */
  method FetchBatch(spend: Spend, batch: seq<int>, oks: nat) returns (done: nat, failed: nat)
    modifies spend
    ensures done == Min(oks, |batch|) && done + failed == |batch|
    ensures spend.calls == old(spend.calls) + done
  {
    done := 0;
    while done < oks && done < |batch|
      invariant done <= oks && done <= |batch|
      invariant spend.calls == old(spend.calls) + done
    {
      spend.Take();
      done := done + 1;
    }
    failed := |batch| - done;
  }

  /** Why a lane stops before turn `n`: closed, its limit or the cap used up, or nothing left. */
  predicate LaneStops(turns: seq<DetailTurn>, open: bool, n: nat, fetched: int, limit: int, calls: int, cap: int)
    requires n <= |turns|
  {
    n == |turns| || (n == 0 && !open) || !turns[n].open || fetched >= limit || calls >= cap
  }

  /** The lane stays open and every request of it succeeds. */
  predicate SmoothLane(turns: seq<DetailTurn>, open: bool, lastOks: nat) {
    open && lastOks >= |turns| && forall i :: 0 <= i < |turns| ==> turns[i].open && turns[i].oks >= |turns|
  }

  /** The client lets this many requests run at once all along. */
  predicate OneWidth(turns: seq<DetailTurn>, width: int) {
    forall i :: 0 <= i < |turns| ==> turns[i].concurrency == width
  }

  function Wider(widest: nat, batch: seq<int>): nat { if |batch| > widest then |batch| else widest }

  lemma {:induction false} DuePrefix(turns: seq<DetailTurn>, n: nat)
    requires n <= |turns|
    ensures |DueIds(turns[..n])| <= |DueIds(turns)|
  {
    if n < |turns| {
      assert turns[..|turns| - 1][..n] == turns[..n];
      DuePrefix(turns[..|turns| - 1], n);
    } else {
      assert turns[..n] == turns;
    }
  }

  /** Open all along and without failures, a lane fetches everything due, up to its limit and the cap. */
  lemma SmoothLaneFetchesAll(turns: seq<DetailTurn>, n: nat, fetched: nat, limit: int, before: int, cap: int)
    requires n <= |turns| && fetched == |DueIds(turns[..n])|
    requires LaneStops(turns, true, n, fetched, limit, before + fetched, cap)
    requires fetched <= Max(0, limit) && before + fetched <= Max(before, cap)
    ensures (forall i :: 0 <= i < |turns| ==> turns[i].open) ==>
      fetched == Min(|DueIds(turns)|, Min(Max(0, limit), Max(0, cap - before)))
  {
    DuePrefix(turns, n);
    if n == |turns| { assert turns[..n] == turns; }
  }

  /** What a lane promises once it has stopped before turn `n`. */
  lemma LaneOver(turns: seq<DetailTurn>, open: bool, lastOks: nat, n: nat, fetched: nat, failed: nat, limit: int,
                 before: int, cap: int)
    requires n <= |turns| && fetched + failed == |DueIds(turns[..n])|
    requires LaneStops(turns, open, n, fetched, limit, before + fetched, cap)
    requires fetched <= Max(0, limit) && before + fetched <= Max(before, cap)
    requires SmoothLane(turns, open, lastOks) ==> failed == 0
    ensures fetched + failed <= |DueIds(turns)|
    ensures SmoothLane(turns, open, lastOks) ==>
      fetched == Min(|DueIds(turns)|, Min(Max(0, limit), Max(0, cap - before)))
  {
    DuePrefix(turns, n);
    if SmoothLane(turns, open, lastOks) { SmoothLaneFetchesAll(turns, n, fetched, limit, before, cap); }
  }

  /** The turns of a lane, in batches of what may run at once, what the limit leaves and the slots left. */
  method FetchLane(spend: Spend, turns: seq<DetailTurn>, lastOks: nat, limit: int)
    returns (fetched: nat, failed: nat, attempted: seq<int>, i: nat, widest: nat)
    requires turns != [] && limit > 0 && spend.calls < spend.maxCalls
    modifies spend
    ensures fetched <= limit && spend.calls == old(spend.calls) + fetched <= spend.maxCalls
    ensures i <= |turns| && attempted == DueIds(turns[..i]) && |attempted| == fetched + failed
    ensures i == |turns| || !turns[i].open || fetched >= limit || spend.calls >= spend.maxCalls
    ensures OneWidth(turns, turns[0].concurrency) ==> widest <= Concurrency(turns[0].concurrency)
    ensures SmoothLane(turns, true, lastOks) ==> failed == 0
  {
    fetched, failed, attempted, i, widest := 0, 0, [], 0, 0;
    var pending: seq<int> := [];
    while i < |turns|
      invariant 0 <= i <= |turns|
      invariant fetched <= limit
      invariant spend.calls == old(spend.calls) + fetched <= spend.maxCalls
      invariant pending != [] ==> |pending| < limit - fetched && |pending| < spend.Slots()
      invariant |pending| <= i && attempted + pending == DueIds(turns[..i])
      invariant |attempted| == fetched + failed
      invariant SmoothLane(turns, true, lastOks) ==> failed == 0
      invariant OneWidth(turns, turns[0].concurrency) ==>
        widest <= Concurrency(turns[0].concurrency) && |pending| < Concurrency(turns[0].concurrency)
    {
      var turn := turns[i];
      if !spend.Left(turn.open) || fetched >= limit { break; }
      DueNext(turns, i);
      i := i + 1;
      if !turn.due { continue; }
      pending := pending + [turn.id];
      var batchCap := Min(Concurrency(turn.concurrency), Min(limit - fetched, spend.Slots()));
      if |pending| >= batchCap {
        var done, lost := FetchBatch(spend, pending, turn.oks);
        widest := Wider(widest, pending);
        fetched, failed, attempted, pending := fetched + done, failed + lost, attempted + pending, [];
      }
    }
    var done, lost := FetchBatch(spend, pending, lastOks);
    widest := Wider(widest, pending);
    fetched, failed, attempted := fetched + done, failed + lost, attempted + pending;
  }

  /**
    Batches never outgrow the limit, the slots left or what may run at once, and
    the fixtures attempted are the due ones among the first `i` of the service
    order, none skipped. The lane stops only when it is closed, the limit or the
    cap is used up, or nothing is left. The cap bounds the successes; requests
    that fail are bounded only by the fixtures that are due, each tried once.
   */
  method RefreshDetails(spend: Spend, turns: seq<DetailTurn>, open: bool, lastOks: nat, limit: int)
    returns (fetched: nat, failed: nat, attempted: seq<int>, i: nat, widest: nat)
    modifies spend
    ensures fetched <= Max(0, limit)
    ensures spend.calls == old(spend.calls) + fetched
    ensures spend.calls <= Max(old(spend.calls), spend.maxCalls)
    ensures |attempted| == fetched + failed <= |DueIds(turns)|
    ensures i <= |turns| && attempted == DueIds(turns[..i])
    ensures LaneStops(turns, open, i, fetched, limit, spend.calls, spend.maxCalls)
    ensures turns != [] && OneWidth(turns, turns[0].concurrency) ==>
      widest <= if turns[0].concurrency > 0 then turns[0].concurrency else 2
    ensures SmoothLane(turns, open, lastOks) ==>
      failed == 0
      && fetched == Min(|DueIds(turns)|, Min(Max(0, limit), Max(0, spend.maxCalls - old(spend.calls))))
  {
    fetched, failed, attempted, i, widest := 0, 0, [], 0, 0;
    assert DueIds(turns[..0]) == [];
    if turns != [] && limit > 0 && spend.Left(open) {
      fetched, failed, attempted, i, widest := FetchLane(spend, turns, lastOks, limit);
    }
    LaneOver(turns, open, lastOks, i, fetched, failed, limit, old(spend.calls), spend.maxCalls);
  }

  /** Where the next live refresh starts in its list. */
  function NextCursor(cursor: nat, fetched: nat, live: nat): nat
    requires live > 0
  {
    (cursor + Max(1, fetched)) % live
  }

  /** Places the cursor has moved over a number of refreshes: as many as were fetched, at least one each. */
  function Moves(fetches: seq<nat>): nat {
    if fetches == [] then 0 else Moves(fetches[..|fetches| - 1]) + Max(1, fetches[|fetches| - 1])
  }

  function CursorAfter(start: nat, fetches: seq<nat>, live: nat): nat
    requires live > 0
  {
    if fetches == [] then start
    else NextCursor(CursorAfter(start, fetches[..|fetches| - 1], live), fetches[|fetches| - 1], live)
  }

  lemma Multiples(q: int, p: int, m: int)
    ensures q * m - p * m == (q - p) * m
  {
  }

  lemma MultipleIsWhole(d: int, m: int)
    requires d >= 1 && m >= 1
    ensures d * m >= m
  {
  }

  lemma SameRemainder(q: int, r: int, p: int, s: int, m: int)
    requires m > 0 && 0 <= r < m && 0 <= s < m && q * m + r == p * m + s
    ensures r == s
  {
    if q > p {
      Multiples(q, p, m);
      MultipleIsWhole(q - p, m);
    } else if q < p {
      Multiples(p, q, m);
      MultipleIsWhole(p - q, m);
    }
  }

  lemma ModAdds(a: nat, b: nat, m: nat)
    requires m > 0
    ensures (a % m + b) % m == (a + b) % m
  {
    var x := a % m + b;
    assert a == a / m * m + a % m && x == x / m * m + x % m && a + b == (a + b) / m * m + (a + b) % m;
    assert (a / m + x / m) * m == a / m * m + x / m * m;
    SameRemainder(a / m + x / m, x % m, (a + b) / m, (a + b) % m, m);
  }

  lemma CursorStep(total: nat, fetched: nat, live: nat)
    requires live > 0
    ensures NextCursor(total % live, fetched, live) == (total + Max(1, fetched)) % live
  {
    ModAdds(total, Max(1, fetched), live);
  }

  lemma InsideTheList(start: nat, live: nat)
    requires start < live
    ensures start % live == start
  {
  }

  /** The cursor goes round the list without skipping: refreshes move it by all they fetched. */
  lemma {:induction false} CursorGoesRound(start: nat, fetches: seq<nat>, live: nat)
    requires live > 0 && start < live
    ensures CursorAfter(start, fetches, live) == (start + Moves(fetches)) % live
  {
    if fetches == [] {
      InsideTheList(start, live);
    } else {
      var n := |fetches| - 1;
      CursorGoesRound(start, fetches[..n], live);
      CursorStep(start + Moves(fetches[..n]), fetches[n], live);
    }
  }

  /** The cursor always points into the list and, with more than one match, never stays for less than a full round. */
  lemma CursorMoves(cursor: nat, fetched: nat, live: nat)
    requires live > 0 && cursor < live
    ensures NextCursor(cursor, fetched, live) < live
    ensures Max(1, fetched) < live ==> NextCursor(cursor, fetched, live) != cursor
  {
    var ahead := cursor + Max(1, fetched);
    if Max(1, fetched) < live {
      if ahead < live { assert ahead % live == ahead; } else { assert ahead % live == ahead - live; }
    }
  }

  /** Probes that used a request. */
  function Requests(turns: seq<DrainTurn>): nat {
    if turns == [] then 0 else Requests(turns[..|turns| - 1]) + if turns[|turns| - 1].usedHttp then 1 else 0
  }

  lemma {:induction false} RequestsGrow(turns: seq<DrainTurn>, n: nat)
    requires n <= |turns|
    ensures Requests(turns[..n]) <= Requests(turns)
  {
    if n < |turns| {
      assert turns[..|turns| - 1][..n] == turns[..n];
      RequestsGrow(turns[..|turns| - 1], n);
    } else {
      assert turns[..n] == turns;
    }
  }

  /** The queue never runs dry and the drain is never closed. */
  predicate SmoothDrain(turns: seq<DrainTurn>) {
    forall i :: 0 <= i < |turns| ==> turns[i].open && turns[i].found
  }

  /**
    One-shot probes in turn, each that used a request counted, until the drain
    is closed, the limit or the cap is used up or the queue runs out; returns
    what is left of the limit.
   */
  method Drain(spend: Spend, limit: int, turns: seq<DrainTurn>) returns (left: int)
    requires limit >= 0
    modifies spend
    ensures 0 <= left <= limit
    ensures spend.calls == old(spend.calls) + (limit - left)
    ensures spend.calls <= Max(old(spend.calls), spend.maxCalls)
    ensures exists n: nat ::
      n <= |turns| && limit - left == Requests(turns[..n])
      && (n == |turns| || !turns[n].open || !turns[n].found || left == 0 || spend.calls >= spend.maxCalls)
    ensures SmoothDrain(turns) ==>
      limit - left == Min(Requests(turns), Min(limit, Max(0, spend.maxCalls - old(spend.calls))))
  {
    var used, i := 0, 0;
    assert turns[..0] == [];
    while i < |turns|
      invariant i <= |turns| && used == Requests(turns[..i])
      invariant 0 <= used <= limit
      invariant spend.calls == old(spend.calls) + used
      invariant used > 0 ==> spend.calls <= spend.maxCalls
    {
      if !spend.Left(turns[i].open) || used >= limit || !turns[i].found { break; }
      assert turns[..i + 1][..i] == turns[..i];
      if turns[i].usedHttp {
        spend.Take();
        used := used + 1;
      }
      i := i + 1;
    }
    left := limit - used;
    RequestsGrow(turns, i);
    assert i == |turns| ==> turns[..i] == turns;
  }

  /** The cap of one refresh: the caller's, or without one whatever the three lanes may need. */
  function RefreshCap(hardCap: int, maxContextCalls: Option<int>, oneshotCalls: int): (cap: int)
    ensures 0 <= cap <= Max(0, hardCap)
    // Nothing else shortens it: the cap is the hard one, the caller's, or what the three lanes may need.
    ensures cap == Max(0, hardCap) || (maxContextCalls.Some? && cap == Max(0, maxContextCalls.value))
      || (maxContextCalls.None? && cap == 40 + 8 + Max(0, oneshotCalls))
  {
    if maxContextCalls.Some? then Max(0, Min(hardCap, maxContextCalls.value))
    else if hardCap <= 0 then 0
    else Min(hardCap, Planner.DETAIL_CALLS + Planner.FINAL_CALLS + Max(0, oneshotCalls))
  }

  datatype Report = Report(live: nat, finishing: nat, oneshots: nat)

  /** Requests of all the drains of a refresh. */
  function AllRequests(drains: seq<(bool, seq<DrainTurn>)>): nat {
    if drains == [] then 0 else AllRequests(drains[..|drains| - 1]) + Requests(drains[|drains| - 1].1)
  }

  /** Time and quota hold, nothing fails and no queue runs dry. */
  predicate Smooth(script: RefreshScript) {
    && SmoothLane(script.live, script.liveOpen, script.liveLastOks)
    && SmoothLane(script.finishing, script.finishingOpen, script.finishingLastOks)
    && forall i :: 0 <= i < |script.drains| ==> script.drains[i].0 && SmoothDrain(script.drains[i].1)
  }

  /** Live detail goes first, then closing detail, then one-shots, each as far as its own limit and the cap go. */
  predicate SharesOf(report: Report, script: RefreshScript, cap: int, oneshotCalls: int) {
    && report.live == Min(|DueIds(script.live)|, Min(40, cap))
    && report.finishing == Min(|DueIds(script.finishing)|, Min(8, cap - report.live))
    && report.oneshots
       == Min(AllRequests(script.drains), Min(Max(0, oneshotCalls), cap - report.live - report.finishing))
  }

  /** The one-shot drains in turn, sharing one limit. */
  method DrainAll(spend: Spend, limit: int, drains: seq<(bool, seq<DrainTurn>)>) returns (left: int)
    requires limit >= 0 && (limit > 0 ==> spend.calls + limit <= spend.maxCalls)
    modifies spend
    ensures 0 <= left <= limit && spend.calls == old(spend.calls) + (limit - left)
    ensures (forall i :: 0 <= i < |drains| ==> drains[i].0 && SmoothDrain(drains[i].1)) ==>
      limit - left == Min(AllRequests(drains), limit)
  {
    left := limit;
    for i := 0 to |drains|
      invariant 0 <= left <= limit && spend.calls == old(spend.calls) + (limit - left)
      invariant (forall k :: 0 <= k < i ==> drains[k].0 && SmoothDrain(drains[k].1)) ==>
        limit - left == Min(AllRequests(drains[..i]), limit)
    {
      assert drains[..i + 1][..i] == drains[..i];
      var (open, turns) := drains[i];
      if spend.Left(open) && left != 0 {
        left := Drain(spend, left, turns);
      }
    }
    assert drains[..|drains|] == drains;
  }

  /**
    A whole refresh never reports more calls than its cap, nor any share more
    than its own limit; and when nothing gets in its way, exactly the shares
    that are due.
   */
  method Refresh(hardCap: int, maxContextCalls: Option<int>, oneshotCalls: int, script: RefreshScript)
    returns (calls: int, report: Report)
    ensures 0 <= calls <= RefreshCap(hardCap, maxContextCalls, oneshotCalls)
    ensures calls == report.live + report.finishing + report.oneshots
    ensures report.live <= Planner.DETAIL_CALLS
    ensures report.finishing <= Planner.FINAL_CALLS
    ensures report.oneshots <= Max(0, oneshotCalls)
    ensures Smooth(script) ==>
      SharesOf(report, script, RefreshCap(hardCap, maxContextCalls, oneshotCalls), oneshotCalls)
  {
    var cap := RefreshCap(hardCap, maxContextCalls, oneshotCalls);
    var spend := new Spend(cap);
    var live, _, _, _, _ := RefreshDetails(spend, script.live, script.liveOpen, script.liveLastOks,
                                  Min(Planner.DETAIL_CALLS, cap));
    var finishing, _, _, _, _ := RefreshDetails(spend, script.finishing, script.finishingOpen, script.finishingLastOks,
                                       Min(Planner.FINAL_CALLS, Max(0, cap - spend.calls)));
    var limit := Min(Max(0, oneshotCalls), Max(0, cap - spend.calls));
    var left := DrainAll(spend, limit, script.drains);
    calls, report := spend.calls, Report(live, finishing, limit - left);
  }

  /**
    Priority 3 of the tick: draw the cap, refresh within it, refund what was not
    reported. A refresh that raises reports nothing. The refund is never
    negative, the calls counted stay within the cap, and the credit moves
    exactly as one `Tick` of the bucket by the calls reported. Requests that
    fail are not counted.
   */
  method ContextSlot(credit: ContextCredit, rate: real, remaining: int, safetyBuffer: int,
                     hardCap: int, oneshotCalls: int, script: RefreshScript, raises: bool)
    returns (allowance: int, made: int, reported: int)
    modifies credit
    ensures 0 <= made <= Max(0, allowance)
    ensures reported == if raises then 0 else made
    ensures made > 0 ==> remaining - made > safetyBuffer
    ensures var room := Max(0, remaining - safetyBuffer - 1);
      (allowance, credit.balance) == TickOf(old(credit.balance), Tick(rate, room, reported))
  {
    var room := remaining - safetyBuffer - 1;
    allowance := credit.Allowance(rate, Max(0, room));
    made, reported := 0, 0;
    if allowance <= 0 { return; }
    var report;
    made, report := Refresh(hardCap, Some(allowance), oneshotCalls, script);
    if !raises { reported := made; }
    credit.Refund(allowance - Max(0, reported), rate);
  }

  // ------------------------------------------------------ refreshes that raise

  /** One slot as it went: the rate and room of its draw, the calls counted, and whether the refresh raised. */
  datatype Slot = Slot(rate: real, room: int, made: int, raises: bool)

  function Reported(s: Slot): int { if s.raises then 0 else s.made }

  function TickFor(s: Slot): Tick { Tick(s.rate, s.room, Reported(s)) }

  /** A refresh that raised gives back the credit of its calls, up to the cap of the bucket. */
  lemma RaisingIsFree(balance: real, rate: real, room: int, made: int)
    requires balance >= 0.0 && rate > 0.0 && 0 <= made <= Allowed(balance, rate, room).0
    ensures TickOf(balance, Tick(rate, room, 0)).1
      == MinReal(rate * CREDIT_TICKS, TickOf(balance, Tick(rate, room, made)).1 + made as real)
  {
  }

  /**
    A slot pays for its calls out of what the bucket held and gained exactly
    when its refresh did not raise, or made no more calls than the cap cut off.
   */
  lemma SlotPaysIff(balance: real, s: Slot)
    requires balance >= 0.0 && s.rate > 0.0 && 0 <= s.made <= Allowed(balance, s.rate, s.room).0
    ensures TickOf(balance, TickFor(s)).1 + s.made as real <= balance + s.rate
      <==> !s.raises || s.made as real <= balance + s.rate - MinReal(s.rate * CREDIT_TICKS, balance + s.rate)
  {
    TickIsSound(balance, TickFor(s));
    RaisingIsFree(balance, s.rate, s.room, s.made);
    NothingUsed(balance, s.rate, s.room);
  }

  /** A grant of which nothing is used comes back whole: the bucket stands at its filled level. */
  lemma NothingUsed(balance: real, rate: real, room: int)
    requires balance >= 0.0 && rate > 0.0
    ensures TickOf(balance, Tick(rate, room, 0)).1 == MinReal(rate * CREDIT_TICKS, balance + rate)
  {
  }

  function Ticks(slots: seq<Slot>): (ticks: seq<Tick>)
    ensures |ticks| == |slots|
  {
    if slots == [] then [] else Ticks(slots[..|slots| - 1]) + [TickFor(slots[|slots| - 1])]
  }

  function Made(slots: seq<Slot>): int {
    if slots == [] then 0 else Made(slots[..|slots| - 1]) + slots[|slots| - 1].made
  }

  /** Calls made by the refreshes that raised. */
  function MadeRaising(slots: seq<Slot>): int {
    if slots == [] then 0
    else MadeRaising(slots[..|slots| - 1]) + if slots[|slots| - 1].raises then slots[|slots| - 1].made else 0
  }

  function Gained(slots: seq<Slot>): real { Rates(Ticks(slots)) }

  function BucketAfter(start: real, slots: seq<Slot>): real { BalanceAfter(start, Ticks(slots)) }

  /** No slot counts more calls than it was granted. */
  ghost predicate WithinSlots(start: real, slots: seq<Slot>) {
    if slots == [] then true
    else
      var last := slots[|slots| - 1];
      && WithinSlots(start, slots[..|slots| - 1])
      && 0 <= last.made <= TickOf(BucketAfter(start, slots[..|slots| - 1]), TickFor(last)).0
  }

  lemma TicksGrow(start: real, slots: seq<Slot>)
    requires slots != []
    ensures var before := slots[..|slots| - 1];
      && BucketAfter(start, slots) == TickOf(BucketAfter(start, before), TickFor(slots[|slots| - 1])).1
      && Gained(slots) == Gained(before) + MaxReal(0.0, slots[|slots| - 1].rate)
  {
    var n := |slots| - 1;
    assert Ticks(slots)[..n] == Ticks(slots[..n]);
  }

  /**
    Over any run of slots the calls made, and the credit left, never exceed the
    first balance and all rates by more than what raising refreshes made.
   */
  lemma {:induction false} CallsBoundedButForRaises(start: real, slots: seq<Slot>)
    requires start >= 0.0 && WithinSlots(start, slots)
    ensures BucketAfter(start, slots) >= 0.0
    ensures Made(slots) as real + BucketAfter(start, slots) <= start + Gained(slots) + MadeRaising(slots) as real
  {
    if slots != [] {
      var n := |slots| - 1;
      CallsBoundedButForRaises(start, slots[..n]);
      TicksGrow(start, slots);
      TickIsSound(BucketAfter(start, slots[..n]), TickFor(slots[n]));
    }
  }

  lemma {:induction false} NoneRaised(slots: seq<Slot>)
    requires forall i :: 0 <= i < |slots| ==> !slots[i].raises
    ensures MadeRaising(slots) == 0
  {
    if slots != [] { NoneRaised(slots[..|slots| - 1]); }
  }

  /** While no refresh raises, the bucket bounds the calls made. */
  lemma CallsBoundedWithoutRaises(start: real, slots: seq<Slot>)
    requires start >= 0.0 && WithinSlots(start, slots)
    requires forall i :: 0 <= i < |slots| ==> !slots[i].raises
    ensures Made(slots) as real <= start + Gained(slots)
  {
    CallsBoundedButForRaises(start, slots);
    NoneRaised(slots);
  }

  lemma OneMoreSlot(start: real, slots: seq<Slot>, s: Slot)
    ensures BucketAfter(start, slots + [s]) == TickOf(BucketAfter(start, slots), TickFor(s)).1
    ensures Made(slots + [s]) == Made(slots) + s.made
    ensures Gained(slots + [s]) == Gained(slots) + MaxReal(0.0, s.rate)
    ensures WithinSlots(start, slots + [s])
      <==> WithinSlots(start, slots) && 0 <= s.made <= TickOf(BucketAfter(start, slots), TickFor(s)).0
  {
    assert (slots + [s])[..|slots|] == slots;
    TicksGrow(start, slots + [s]);
  }

  /** Three slots at rate 1 from an empty bucket, each using its grant and raising: six calls for three credits. */
  lemma RaisingBreaksTheBound(room: int)
    requires room >= 3
    ensures var slots := [Slot(1.0, room, 1, true), Slot(1.0, room, 2, true), Slot(1.0, room, 3, true)];
      WithinSlots(0.0, slots) && Made(slots) == 6 && Gained(slots) == 3.0
  {
    var a, b, c := Slot(1.0, room, 1, true), Slot(1.0, room, 2, true), Slot(1.0, room, 3, true);
    OneMoreSlot(0.0, [], a);
    OneMoreSlot(0.0, [a], b);
    OneMoreSlot(0.0, [a, b], c);
    assert [] + [a] == [a] && [a] + [b] == [a, b] && [a, b] + [c] == [a, b, c];
    NothingUsed(0.0, 1.0, room);
    NothingUsed(1.0, 1.0, room);
  }
}
