/**
  The scheduler's history spender. It opens the client's history window, runs
  history handlers until the allowance or the minute is spent, and lets due
  score ticks through in between.

  The outside world is a script: how long every step takes, which sends each
  handler attempts and how it ends, what the quota reads and when a score tick
  is due. A finite script stands for the run up to the moment `stop` is seen;
  what holds for every script holds at every moment of every run.
 */
module HistorySpend {
  import opened Prelude
  import opened RateWindow
  import opened Planner
  import opened Drip

  datatype HandlerEnd = Returned | WindowClosed | QuotaExhausted

  /** A handler attempts a send after each delay; a send may be refused. */
  datatype Handler = Handler(delays: seq<nat>, end: HandlerEnd)

  datatype SlotTurn = SlotTurn(delay: nat, remaining: int, plan: LiveBudgetPlan, handler: Option<Handler>)

  datatype Turn =
    | ScoreTick(delays: seq<nat>, goOn: bool, untilMidnight: nat, liveMatches: int)
    | Pass(slots: seq<SlotTurn>)

  const FORWARD_SYNC := 6
  const HISTORY_ORDER := [5, 6, 7, 8, 9]

  function HistoryPerMinute(liveMatches: int): int {
    if liveMatches >= 50 then 150 else 330
  }

  function LivePerMinute(liveMatches: int): int {
    if liveMatches >= 50 then 300 else 120
  }

  const VENDOR_PER_MINUTE := 450

  /** The two minute budgets always add up to the vendor's, and a busy board moves calls from history to live. */
  lemma LanesShareTheVendorMinute(liveMatches: int, busier: int)
    requires liveMatches <= busier
    ensures HistoryPerMinute(liveMatches) + LivePerMinute(liveMatches) == VENDOR_PER_MINUTE
    ensures HistoryPerMinute(busier) <= HistoryPerMinute(liveMatches)
    ensures HistoryPerMinute(liveMatches) < HistoryPerMinute(0) <==> liveMatches >= 50
  {
  }

  /** Calls made with no history window open. */
  function LiveCalls(log: Log): int { Made(log) - MadeByHistory(log) }

  /** The forward sync refetches today, so it may run once per spend. */
  ghost predicate ForwardSyncOnce(ran: seq<int>) {
    multiset(ran)[FORWARD_SYNC] <= 1
  }

  // --------------------------------------------------------- what a pass is to do

  /** The client after sends at these delays, and the time then. */
  ghost function Sends(g: Gate, now: int, delays: seq<nat>): (Gate, int) {
    if delays == [] then (g, now)
    else
      var (before, at) := Sends(g, now, delays[..|delays| - 1]);
      (Step(before, RateWindow.Send(at + delays[|delays| - 1])), at + delays[|delays| - 1])
  }

  /** Deadline, allowance or a minute limit stops history here. */
  ghost predicate Stops(g: Gate, at: int, baseline: int, allowance: int)
    requires g.window.Some?
  {
    || at >= g.window.value.deadline
    || Made(g.log) - baseline >= allowance
    || Recent(g, HistoryOnly, at) >= g.window.value.perMinute
    || Recent(g, Every, at) >= g.vendorPerMinute
  }

  /** The exact condition under which a slot runs its handler. */
  ghost predicate Admits(g: Gate, at: int, priority: int, slot: SlotTurn, baseline: int, allowance: int)
    requires g.window.Some?
  {
    slot.handler.Some? && !Stops(g, at, baseline, allowance) && QuotaAllows(priority, slot.remaining, slot.plan)
  }

  /** One slot of a pass as it went: what it found and when, whether it ran, and what it left and when. */
  datatype Visit = Visit(before: Gate, at: int, ran: bool, after: Gate, left: int)

  /** The forward sync is passed over once it has run; every other slot runs exactly when it is admitted. */
  ghost predicate VisitOk(v: Visit, g: Gate, now: int, priority: int, slot: SlotTurn, onceDone: bool,
                          baseline: int, allowance: int)
  {
    && v.before == g && g.window.Some?
    && if priority == FORWARD_SYNC && onceDone then v == Visit(g, now, false, g, now)
       else
         && v.at == now + slot.delay
         && (v.ran <==> Admits(g, v.at, priority, slot, baseline, allowance))
         && (v.after, v.left) == (if v.ran then Sends(g, v.at, slot.handler.value.delays) else (g, v.at))
  }

  /** The pass goes no further: the handler ended it, or history had to stop. */
  ghost predicate EndsPass(v: Visit, priority: int, slot: SlotTurn, onceDone: bool, baseline: int, allowance: int)
    requires v.before.window.Some? && (v.ran ==> slot.handler.Some?)
  {
    !(priority == FORWARD_SYNC && onceDone)
    && if v.ran then slot.handler.value.end != Returned else Stops(v.before, v.at, baseline, allowance)
  }

  /** A pass from a state of the client: its visits, in the order of the priorities. */
  datatype PassRecord = PassRecord(start: Gate, from: int, baseline: int, onceDone: bool, visits: seq<Visit>)

  ghost function EndOf(p: PassRecord): (Gate, int) {
    if p.visits == [] then (p.start, p.from)
    else (p.visits[|p.visits| - 1].after, p.visits[|p.visits| - 1].left)
  }

  function Before(p: PassRecord): PassRecord
    requires p.visits != []
  {
    p.(visits := p.visits[..|p.visits| - 1])
  }

  /** The last visit found what the ones before it left. */
  ghost predicate LastFollows(p: PassRecord, slots: seq<SlotTurn>, allowance: int) {
    var n := |p.visits| - 1;
    && 0 <= n < Min(|HISTORY_ORDER|, |slots|)
    && VisitOk(p.visits[n], EndOf(Before(p)).0, EndOf(Before(p)).1, HISTORY_ORDER[n], slots[n], p.onceDone,
               p.baseline, allowance)
  }

  ghost predicate LastEnds(p: PassRecord, slots: seq<SlotTurn>, allowance: int)
    requires LastFollows(p, slots, allowance)
  {
    var n := |p.visits| - 1;
    EndsPass(p.visits[n], HISTORY_ORDER[n], slots[n], p.onceDone, p.baseline, allowance)
  }

  /** Where a pass stands after its visits; broken when they are not those of a pass. */
  datatype Progress = Going | Over | Broken

  /**
    A pass visits the priorities in order, each visit finding what the one
    before it left, and is over with the first visit that ends it or with the
    last slot.
   */
  ghost function ProgressOf(p: PassRecord, slots: seq<SlotTurn>, allowance: int): Progress
    decreases |p.visits|
  {
    var all := Min(|HISTORY_ORDER|, |slots|);
    if p.visits == [] then (if all == 0 then Over else Going)
    else if ProgressOf(Before(p), slots, allowance) != Going || !LastFollows(p, slots, allowance) then Broken
    else if LastEnds(p, slots, allowance) || |p.visits| == all then Over
    else Going
  }

  /** The priorities that ran. */
  function Ran(visits: seq<Visit>): seq<int>
    requires |visits| <= |HISTORY_ORDER|
  {
    if visits == [] then []
    else Ran(visits[..|visits| - 1]) + if visits[|visits| - 1].ran then [HISTORY_ORDER[|visits| - 1]] else []
  }

  /** The last handler of the pass met the end of the vendor's quota. */
  predicate EndedByQuota(p: PassRecord, slots: seq<SlotTurn>) {
    && 0 < |p.visits| <= |slots| && p.visits[|p.visits| - 1].ran
    && slots[|p.visits| - 1].handler.Some? && slots[|p.visits| - 1].handler.value.end == QuotaExhausted
  }

  /** One more visit: the pass goes on, or is over. */
  lemma OneVisitMore(was: PassRecord, next: PassRecord, v: Visit, slots: seq<SlotTurn>, allowance: int)
    requires ProgressOf(was, slots, allowance) == Going && |was.visits| < Min(|HISTORY_ORDER|, |slots|)
    requires next == was.(visits := was.visits + [v])
    requires var n := |was.visits|;
      VisitOk(v, EndOf(was).0, EndOf(was).1, HISTORY_ORDER[n], slots[n], was.onceDone, was.baseline, allowance)
    ensures LastFollows(next, slots, allowance)
    ensures ProgressOf(next, slots, allowance)
      == if LastEnds(next, slots, allowance) || |next.visits| == Min(|HISTORY_ORDER|, |slots|) then Over else Going
  {
    BeforeNext(was, next, v);
  }

  lemma BeforeNext(was: PassRecord, next: PassRecord, v: Visit)
    requires next == was.(visits := was.visits + [v]) && |next.visits| <= |HISTORY_ORDER|
    ensures Before(next) == was && EndOf(next) == (v.after, v.left)
    ensures Ran(next.visits) == Ran(was.visits) + (if v.ran then [HISTORY_ORDER[|was.visits|]] else [])
  {
    assert next.visits[..|was.visits|] == was.visits;
  }

  /** What a visit appended to a pass makes of it. */
  lemma VisitTaken(was: PassRecord, next: PassRecord, v: Visit, slots: seq<SlotTurn>, allowance: int, i: nat)
    requires ProgressOf(was, slots, allowance) == Going && i == |was.visits| < Min(|HISTORY_ORDER|, |slots|)
    requires next == was.(visits := was.visits + [v])
    requires VisitOk(v, EndOf(was).0, EndOf(was).1, HISTORY_ORDER[i], slots[i], was.onceDone, was.baseline, allowance)
    ensures |next.visits| == i + 1 && next.visits[..i] == was.visits && next.visits[i] == v
    ensures EndOf(next) == (v.after, v.left)
    ensures Ran(next.visits) == Ran(was.visits) + if v.ran then [HISTORY_ORDER[i]] else []
    ensures ProgressOf(next, slots, allowance)
      == if EndsPass(v, HISTORY_ORDER[i], slots[i], was.onceDone, was.baseline, allowance)
            || i + 1 == Min(|HISTORY_ORDER|, |slots|) then Over else Going
    ensures EndedByQuota(next, slots) <==>
      v.ran && slots[i].handler.Some? && slots[i].handler.value.end == QuotaExhausted
  {
    BeforeNext(was, next, v);
    OneVisitMore(was, next, v, slots, allowance);
  }

  /** Only the forward sync is passed over, and only once it is done. */
  ghost predicate RanForward(p: PassRecord) { |p.visits| >= 2 && p.visits[1].ran }

  /** The forward sync is the second priority, so it runs at most once. */
  lemma {:induction false} ForwardCount(visits: seq<Visit>)
    requires |visits| <= |HISTORY_ORDER|
    ensures multiset(Ran(visits))[FORWARD_SYNC] == if |visits| >= 2 && visits[1].ran then 1 else 0
  {
    if visits != [] { ForwardCount(visits[..|visits| - 1]); }
  }

  lemma {:induction false} DoneForwardStays(p: PassRecord, slots: seq<SlotTurn>, allowance: int)
    requires ProgressOf(p, slots, allowance) != Broken && p.onceDone
    ensures !RanForward(p)
    decreases |p.visits|
  {
    if p.visits != [] { DoneForwardStays(Before(p), slots, allowance); }
  }

  lemma {:induction false} NoMoreVisitsThanSlots(p: PassRecord, slots: seq<SlotTurn>, allowance: int)
    requires ProgressOf(p, slots, allowance) != Broken
    ensures |p.visits| <= Min(|HISTORY_ORDER|, |slots|)
  {
  }

  lemma ForwardAtMostOnce(p: PassRecord, slots: seq<SlotTurn>, allowance: int)
    requires ProgressOf(p, slots, allowance) == Over
    ensures |p.visits| <= |HISTORY_ORDER|
    ensures ForwardSyncOnce(Ran(p.visits)) && (FORWARD_SYNC in Ran(p.visits) <==> RanForward(p))
    ensures p.onceDone ==> !RanForward(p)
  {
    NoMoreVisitsThanSlots(p, slots, allowance);
    ForwardCount(p.visits);
    if p.onceDone { DoneForwardStays(p, slots, allowance); }
  }

  // ------------------------------------------------------------ why a spend ends

  /** The minute limit in force after these turns. */
  function PerMinuteAfter(script: seq<Turn>, start: int): int {
    if script == [] then start
    else
      var last := script[|script| - 1];
      if last.ScoreTick? then HistoryPerMinute(last.liveMatches)
      else PerMinuteAfter(script[..|script| - 1], start)
  }

  /** The pass began with allowance left and its minute not full. */
  ghost predicate Began(p: PassRecord, allowance: int) {
    && p.start.window.Some? && Made(p.start.log) - p.baseline < allowance
    && Recent(p.start, HistoryOnly, p.from) < p.start.window.value.perMinute
    && Recent(p.start, Every, p.from) < p.start.vendorPerMinute
  }

  /** A call was made and the vendor's quota held. */
  ghost predicate GotSomewhere(p: PassRecord, slots: seq<SlotTurn>) {
    Made(EndOf(p).0.log) > Made(p.start.log) && !EndedByQuota(p, slots)
  }

  /** A pass that began and went as a pass does. */
  ghost predicate Taken(p: PassRecord, slots: seq<SlotTurn>, allowance: int) {
    Began(p, allowance) && ProgressOf(p, slots, allowance) == Over
  }

  /** Through these turns every tick said go on, and every pass was taken and got somewhere. */
  ghost predicate GoesThrough(turns: seq<Turn>, passes: seq<PassRecord>, allowance: int) {
    if turns == [] then passes == []
    else
      var n, last := |turns| - 1, turns[|turns| - 1];
      match last
      case ScoreTick(_, goOn, _, _) => goOn && GoesThrough(turns[..n], passes, allowance)
      case Pass(slots) =>
        passes != [] && Taken(passes[|passes| - 1], slots, allowance) && GotSomewhere(passes[|passes| - 1], slots)
        && GoesThrough(turns[..n], passes[..|passes| - 1], allowance)
  }

  datatype SpendEnd = ScriptOver | ToldToStop | AllowanceSpent | MinuteFull | NothingMade

  /**
    Why a spend ended with the last of these turns, all earlier ones gone
    through: a score tick said so, a pass found the allowance used up to the
    last call or the minute full at that moment, or a pass was taken and got
    nowhere. Without such a reason the script is over.
   */
  ghost predicate EndsFor(end: SpendEnd, turns: seq<Turn>, passes: seq<PassRecord>, history: int,
                          allowance: int, startPerMinute: int, g: Gate, now: int)
  {
    if end.ScriptOver? then GoesThrough(turns, passes, allowance)
    else
      && turns != []
      && var before, last := turns[..|turns| - 1], turns[|turns| - 1];
         match end
         case ScriptOver => true
         case ToldToStop => GoesThrough(before, passes, allowance) && last.ScoreTick? && !last.goOn
         case AllowanceSpent => GoesThrough(before, passes, allowance) && last.Pass? && history == allowance
         case MinuteFull =>
           && GoesThrough(before, passes, allowance) && last.Pass?
           && (Recent(g, HistoryOnly, now) >= PerMinuteAfter(before, startPerMinute)
               || Recent(g, Every, now) >= g.vendorPerMinute)
         case NothingMade =>
           && last.Pass? && passes != []
           && GoesThrough(before, passes[..|passes| - 1], allowance)
           && Taken(passes[|passes| - 1], last.slots, allowance)
           && !GotSomewhere(passes[|passes| - 1], last.slots)
           && EndOf(passes[|passes| - 1]).0.log == g.log
  }

  lemma GoesThroughTick(turns: seq<Turn>, tick: Turn, passes: seq<PassRecord>, allowance: int)
    requires GoesThrough(turns, passes, allowance) && tick.ScoreTick? && tick.goOn
    ensures GoesThrough(turns + [tick], passes, allowance)
  {
    assert (turns + [tick])[..|turns|] == turns;
  }

  lemma GoesThroughPass(turns: seq<Turn>, turn: Turn, passes: seq<PassRecord>, p: PassRecord, allowance: int)
    requires GoesThrough(turns, passes, allowance) && turn.Pass?
    requires Taken(p, turn.slots, allowance) && GotSomewhere(p, turn.slots)
    ensures GoesThrough(turns + [turn], passes + [p], allowance)
  {
    assert (turns + [turn])[..|turns|] == turns && (passes + [p])[..|passes|] == passes;
  }

  lemma EndsWithTick(turns: seq<Turn>, tick: Turn, passes: seq<PassRecord>, history: int, allowance: int,
                     startPerMinute: int, g: Gate, now: int)
    requires GoesThrough(turns, passes, allowance) && tick.ScoreTick? && !tick.goOn
    ensures EndsFor(ToldToStop, turns + [tick], passes, history, allowance, startPerMinute, g, now)
  {
    assert (turns + [tick])[..|turns|] == turns;
  }

  /** A pass that did not begin, for want of allowance or of room in the minute. */
  lemma EndsBeforePass(end: SpendEnd, turns: seq<Turn>, turn: Turn, passes: seq<PassRecord>, history: int,
                       allowance: int, startPerMinute: int, g: Gate, now: int)
    requires GoesThrough(turns, passes, allowance) && turn.Pass?
    requires (end.AllowanceSpent? && history == allowance)
      || (end.MinuteFull?
          && (Recent(g, HistoryOnly, now) >= PerMinuteAfter(turns, startPerMinute)
              || Recent(g, Every, now) >= g.vendorPerMinute))
    ensures EndsFor(end, turns + [turn], passes, history, allowance, startPerMinute, g, now)
  {
    assert (turns + [turn])[..|turns|] == turns;
  }

  lemma EndsAfterPass(turns: seq<Turn>, turn: Turn, passes: seq<PassRecord>, p: PassRecord, history: int,
                      allowance: int, startPerMinute: int, g: Gate, now: int)
    requires GoesThrough(turns, passes, allowance) && turn.Pass?
    requires Taken(p, turn.slots, allowance) && !GotSomewhere(p, turn.slots) && EndOf(p).0.log == g.log
    ensures EndsFor(NothingMade, turns + [turn], passes + [p], history, allowance, startPerMinute, g, now)
  {
    assert (turns + [turn])[..|turns|] == turns && (passes + [p])[..|passes|] == passes;
  }

  class Scheduler {
    const client: FootballClient
    var now: int

    ghost predicate Valid()
      reads this, client
    {
      client.Valid() && client.clock <= now
    }

    constructor (client: FootballClient, now: int)
      requires client.Valid() && client.clock <= now
      ensures Valid() && this.client == client
    {
      this.client := client;
      this.now := now;
    }

    /** A handler's sends. With a window open every admitted one is a history call below the ceiling. */
    method Attempt(delays: seq<nat>)
      requires Valid()
      modifies this`now, client
      ensures Valid() && client.window == old(client.window)
      ensures (client.View(), now) == Sends(old(client.View()), old(now), delays)
      ensures client.window.None? ==>
        MadeByHistory(client.log) == old(MadeByHistory(client.log)) && Made(client.log) >= old(Made(client.log))
      ensures client.window.Some? ==>
        && LiveCalls(client.log) == old(LiveCalls(client.log))
        && old(Made(client.log)) <= Made(client.log)
        && Made(client.log) <= Max(old(Made(client.log)), client.window.value.ceiling)
    {
      for i := 0 to |delays|
        invariant Valid() && client.window == old(client.window)
        invariant (client.View(), now) == Sends(old(client.View()), old(now), delays[..i])
        invariant client.window.None? ==>
          MadeByHistory(client.log) == old(MadeByHistory(client.log)) && Made(client.log) >= old(Made(client.log))
        invariant client.window.Some? ==>
          && LiveCalls(client.log) == old(LiveCalls(client.log))
          && old(Made(client.log)) <= Made(client.log)
          && Made(client.log) <= Max(old(Made(client.log)), client.window.value.ceiling)
      {
        assert delays[..i + 1][..i] == delays[..i];
        now := now + delays[i];
        var sent := client.SendOnce(now);
      }
      assert delays[..|delays|] == delays;
    }

    /** One history slot: stops the pass, is skipped, or runs its handler. */
    method RunSlot(priority: int, slot: SlotTurn, baseline: int, allowance: int, quietPerMinute: int,
                   ghost onceDone: bool)
      returns (ran: bool, end: Option<HandlerEnd>, ghost visit: Visit)
      requires Valid() && client.window.Some? && !(priority == FORWARD_SYNC && onceDone)
      requires client.window.value.ceiling == baseline + allowance
      requires client.callsMade - baseline <= allowance
      modifies this`now, client
      ensures Valid() && client.window == old(client.window)
      ensures LiveCalls(client.log) == old(LiveCalls(client.log))
      ensures old(client.callsMade) <= client.callsMade <= baseline + allowance
      ensures !ran ==> client.log == old(client.log)
      ensures VisitOk(visit, old(client.View()), old(now), priority, slot, onceDone, baseline, allowance)
      ensures ran == visit.ran && (client.View(), now) == (visit.after, visit.left)
      ensures end == if ran then Some(slot.handler.value.end)
                     else if Stops(visit.before, visit.at, baseline, allowance) then Some(WindowClosed) else None
      ensures end in {Some(WindowClosed), Some(QuotaExhausted)}
        <==> EndsPass(visit, priority, slot, onceDone, baseline, allowance)
      ensures ran && priority >= 5 && slot.plan.detailNeed >= 0 && slot.plan.oddsNeed >= 0 ==>
        slot.remaining - slot.plan.safetyBuffer - slot.plan.FullReserve() >= 1
    {
      now := now + slot.delay;
      ran, end := false, Some(WindowClosed);
      visit := Visit(client.View(), now, false, client.View(), now);
      if now >= client.window.value.deadline || client.callsMade - baseline >= allowance { return; }
      var full := client.HistoryMinuteFull(now, quietPerMinute);
      if full { return; }
      if !QuotaAllows(priority, slot.remaining, slot.plan) || slot.handler.None? { return false, None, visit; }
      if priority >= 5 && slot.plan.detailNeed >= 0 && slot.plan.oddsNeed >= 0 {
        HistoryNeedsSurplus(priority, slot.remaining, slot.plan);
      }
      Attempt(slot.handler.value.delays);
      visit := visit.(ran := true, after := client.View(), left := now);
      return true, Some(slot.handler.value.end), visit;
    }

    /** One turn of the pass: the forward sync is passed over once it is done, any other slot is run. */
    method TakeSlot(i: nat, slot: SlotTurn, baseline: int, allowance: int, quietPerMinute: int, done: bool,
                    ghost slots: seq<SlotTurn>, ghost was: PassRecord)
      returns (ran: bool, end: Option<HandlerEnd>, ghost next: PassRecord)
      requires Valid() && client.window.Some?
      requires client.window.value.ceiling == baseline + allowance
      requires client.callsMade - baseline <= allowance
      requires i < Min(|HISTORY_ORDER|, |slots|) && slot == slots[i] && |was.visits| == i
      requires ProgressOf(was, slots, allowance) == Going
      requires (client.View(), now) == EndOf(was) && was.baseline == baseline
      requires HISTORY_ORDER[i] == FORWARD_SYNC ==> done == was.onceDone
      modifies this`now, client
      ensures Valid() && client.window == old(client.window)
      ensures LiveCalls(client.log) == old(LiveCalls(client.log))
      ensures old(client.callsMade) <= client.callsMade <= baseline + allowance
      ensures next == was.(visits := next.visits) && (client.View(), now) == EndOf(next)
      ensures |next.visits| == i + 1 && next.visits[..i] == was.visits && next.visits[i].ran == ran
      ensures Ran(next.visits) == Ran(was.visits) + if ran then [HISTORY_ORDER[i]] else []
      ensures ProgressOf(next, slots, allowance)
        == if end in {Some(WindowClosed), Some(QuotaExhausted)} || i + 1 == Min(|HISTORY_ORDER|, |slots|) then Over
           else Going
      ensures end == Some(QuotaExhausted) <==> EndedByQuota(next, slots)
    {
      var priority := HISTORY_ORDER[i];
      if priority == FORWARD_SYNC && done {
        ghost var passedOver := Visit(client.View(), now, false, client.View(), now);
        next := was.(visits := was.visits + [passedOver]);
        VisitTaken(was, next, passedOver, slots, allowance, i);
        return false, None, next;
      }
      ghost var visit;
      ran, end, visit := RunSlot(priority, slot, baseline, allowance, quietPerMinute, was.onceDone);
      next := was.(visits := was.visits + [visit]);
      VisitTaken(was, next, visit, slots, allowance, i);
    }

    /** The priorities 5 to 9 in turn: exactly the admitted ones run, until one ends the pass. */
    method OneHistoryPass(baseline: int, allowance: int, quietPerMinute: int, onceDone: bool, slots: seq<SlotTurn>)
      returns (made: bool, done: bool, ran: seq<int>, ghost pass: PassRecord)
      requires Valid() && client.window.Some?
      requires client.window.value.ceiling == baseline + allowance
      requires client.callsMade - baseline <= allowance
      modifies this`now, client
      ensures Valid() && client.window == old(client.window)
      ensures LiveCalls(client.log) == old(LiveCalls(client.log))
      ensures old(client.callsMade) <= client.callsMade <= baseline + allowance
      ensures ProgressOf(pass, slots, allowance) == Over && |pass.visits| <= |HISTORY_ORDER|
      ensures (pass.start, pass.from, pass.baseline, pass.onceDone)
        == (old(client.View()), old(now), baseline, onceDone)
      ensures (client.View(), now) == EndOf(pass)
      ensures ran == Ran(pass.visits)
      ensures made <==> Made(client.log) > Made(old(client.log)) && !EndedByQuota(pass, slots)
      ensures done == (onceDone || RanForward(pass))
    {
      done, ran := onceDone, [];
      var before := client.callsMade;
      var end: Option<HandlerEnd> := None;
      pass := PassRecord(client.View(), now, baseline, onceDone, []);
      for i := 0 to Min(|HISTORY_ORDER|, |slots|)
        invariant Valid() && client.window == old(client.window)
        invariant LiveCalls(client.log) == old(LiveCalls(client.log))
        invariant before <= client.callsMade <= baseline + allowance
        invariant done == (onceDone || RanForward(pass))
        invariant pass == PassRecord(old(client.View()), old(now), baseline, onceDone, pass.visits)
        invariant ProgressOf(pass, slots, allowance) == if i < Min(|HISTORY_ORDER|, |slots|) then Going else Over
        invariant |pass.visits| == i && !EndedByQuota(pass, slots)
        invariant (client.View(), now) == EndOf(pass) && ran == Ran(pass.visits)
        invariant end != Some(QuotaExhausted)
      {
        var priority := HISTORY_ORDER[i];
        var worked;
        worked, end, pass := TakeSlot(i, slots[i], baseline, allowance, quietPerMinute, done, slots, pass);
        if worked {
          ran := ran + [priority];
          done := done || priority == FORWARD_SYNC;
        }
        if end == Some(QuotaExhausted) || end == Some(WindowClosed) { break; }
      }
      made := end != Some(QuotaExhausted) && client.callsMade > before;
    }

    /** A due score tick runs with the window closed. History already made stays on the baseline. */
    method YieldScoreTick(baseline: int, delays: seq<nat>, goOn: bool) returns (kept: Option<int>)
      requires Valid()
      modifies this`now, client
      ensures Valid() && client.window.None?
      ensures (client.View(), now) == Sends(Step(old(client.View()), Close), old(now), delays)
      ensures MadeByHistory(client.log) == old(MadeByHistory(client.log))
      ensures client.callsMade >= old(client.callsMade)
      ensures kept.Some? <==> goOn
      ensures kept.Some? ==> client.callsMade - kept.value == old(client.callsMade) - baseline
    {
      client.CloseHistoryWindow();
      var historySpent := client.callsMade - baseline;
      Attempt(delays);
      kept := if goOn then Some(client.callsMade - historySpent) else None;
    }

    /** A score tick of the script: None when history is to stop, else the baseline and the new minute limit. */
    method TakeScoreTick(turn: Turn, baseline: int, allowance: int) returns (kept: Option<(int, int)>)
      requires Valid() && turn.ScoreTick?
      modifies this`now, client
      ensures Valid() && MadeByHistory(client.log) == old(MadeByHistory(client.log))
      ensures client.callsMade >= old(client.callsMade)
      ensures var (g, at) := Sends(Step(old(client.View()), Close), old(now), turn.delays);
        now == at && client.log == g.log
      ensures kept.Some? <==> turn.goOn
      ensures kept.Some? ==>
        && client.callsMade - kept.value.0 == old(client.callsMade) - baseline
        && kept.value.1 == HistoryPerMinute(turn.liveMatches)
        && client.window == Some(HistoryWindow(now + turn.untilMidnight, kept.value.0 + allowance, kept.value.1))
    {
      var next := YieldScoreTick(baseline, turn.delays, turn.goOn);
      if next.None? { return None; }
      kept := Some((next.value, HistoryPerMinute(turn.liveMatches)));
      client.OpenHistoryWindow(now + turn.untilMidnight, next.value + allowance, kept.value.1);
    }

    /** A pass, unless the allowance or the minute forbids it; with the reason to end, if there is one. */
    method TakePass(slots: seq<SlotTurn>, baseline: int, allowance: int, perMinute: int, onceDone: bool,
                    ghost start: Log, ghost startPerMinute: int, ghost before: seq<Turn>,
                    ghost passes: seq<PassRecord>)
      returns (end: Option<SpendEnd>, done: bool, ran: seq<int>, ghost after: seq<PassRecord>)
      requires Valid() && client.window.Some? && client.window.value.perMinute == perMinute
      requires client.window.value.ceiling == baseline + allowance
      requires client.callsMade - baseline == MadeByHistory(client.log) - MadeByHistory(start) <= allowance
      requires GoesThrough(before, passes, allowance) && perMinute == PerMinuteAfter(before, startPerMinute)
      modifies this`now, client
      ensures Valid() && client.window == old(client.window)
      ensures LiveCalls(client.log) == old(LiveCalls(client.log))
      ensures old(client.callsMade) <= client.callsMade
      ensures client.callsMade - baseline == MadeByHistory(client.log) - MadeByHistory(start) <= allowance
      ensures ForwardSyncOnce(ran) && (onceDone ==> FORWARD_SYNC !in ran)
      ensures done <==> onceDone || FORWARD_SYNC in ran
      ensures end.None? ==> GoesThrough(before + [Pass(slots)], after, allowance)
      ensures end.Some? ==> !end.value.ScriptOver? && EndsFor(end.value, before + [Pass(slots)], after,
        MadeByHistory(client.log) - MadeByHistory(start), allowance, startPerMinute, client.View(), now)
    {
      end, done, ran, after := None, onceDone, [], passes;
      if client.callsMade - baseline >= allowance {
        end := Some(AllowanceSpent);
        EndsBeforePass(AllowanceSpent, before, Pass(slots), passes, allowance, allowance, startPerMinute,
                       client.View(), now);
        return;
      }
      var full := client.HistoryMinuteFull(now, perMinute);
      if full {
        end := Some(MinuteFull);
        EndsBeforePass(MinuteFull, before, Pass(slots), passes, MadeByHistory(client.log) - MadeByHistory(start),
                       allowance, startPerMinute, client.View(), now);
        return;
      }
      var made;
      ghost var pass;
      made, done, ran, pass := OneHistoryPass(baseline, allowance, perMinute, onceDone, slots);
      ForwardAtMostOnce(pass, slots, allowance);
      after := passes + [pass];
      if made {
        GoesThroughPass(before, Pass(slots), passes, pass, allowance);
      } else {
        end := Some(NothingMade);
        EndsAfterPass(before, Pass(slots), passes, pass, MadeByHistory(client.log) - MadeByHistory(start), allowance,
                      startPerMinute, client.View(), now);
      }
    }

    /** One turn of the script, with the reason to end if there is one. */
    method TakeTurn(turn: Turn, baseline: int, allowance: int, perMinute: int, ran: seq<int>,
                    ghost start: Log, ghost startPerMinute: int, ghost before: seq<Turn>,
                    ghost passes: seq<PassRecord>)
      returns (end: Option<SpendEnd>, base: int, limit: int, all: seq<int>, ghost after: seq<PassRecord>)
      requires Valid() && client.window.Some? && client.window.value.perMinute == perMinute
      requires client.window.value.ceiling == baseline + allowance && ForwardSyncOnce(ran)
      requires client.callsMade - baseline == MadeByHistory(client.log) - MadeByHistory(start) <= allowance
      requires GoesThrough(before, passes, allowance) && perMinute == PerMinuteAfter(before, startPerMinute)
      modifies this`now, client
      ensures Valid() && ForwardSyncOnce(all)
      ensures LiveCalls(client.log) >= old(LiveCalls(client.log))
      ensures old(MadeByHistory(client.log)) <= MadeByHistory(client.log) <= MadeByHistory(start) + allowance
      ensures end.None? ==>
        && client.window.Some? && client.window.value.perMinute == limit
        && client.window.value.ceiling == base + allowance
        && client.callsMade - base == MadeByHistory(client.log) - MadeByHistory(start)
        && limit == PerMinuteAfter(before + [turn], startPerMinute)
        && GoesThrough(before + [turn], after, allowance)
      ensures end.Some? ==> !end.value.ScriptOver? && EndsFor(end.value, before + [turn], after,
        MadeByHistory(client.log) - MadeByHistory(start), allowance, startPerMinute, client.View(), now)
    {
      end, base, limit, all, after := None, baseline, perMinute, ran, passes;
      assert (before + [turn])[..|before|] == before;
      if turn.ScoreTick? {
        var kept := TakeScoreTick(turn, baseline, allowance);
        if kept.None? {
          end := Some(ToldToStop);
          EndsWithTick(before, turn, passes, MadeByHistory(client.log) - MadeByHistory(start), allowance,
                       startPerMinute, client.View(), now);
          return;
        }
        GoesThroughTick(before, turn, passes, allowance);
        base, limit := kept.value.0, kept.value.1;
      } else {
        var done, once;
        end, done, once, after := TakePass(turn.slots, baseline, allowance, perMinute, FORWARD_SYNC in ran,
                                           start, startPerMinute, before, passes);
        all := ran + once;
      }
    }

    /**
      Passes and score ticks in script order. The allowance stays the same
      throughout; the minute limit follows the live board at each reopening.
     */
    method Interleave(allowance: int, startPerMinute: int, untilMidnight: nat, script: seq<Turn>)
      returns (ran: seq<int>, end: SpendEnd, turns: nat, ghost passes: seq<PassRecord>)
      requires Valid() && client.window.None? && allowance >= 0
      modifies this`now, client
      ensures Valid()
      ensures 0 <= MadeByHistory(client.log) - old(MadeByHistory(client.log)) <= allowance
      ensures LiveCalls(client.log) >= old(LiveCalls(client.log))
      ensures ForwardSyncOnce(ran)
      ensures turns <= |script| && (end.ScriptOver? ==> turns == |script|)
      ensures EndsFor(end, script[..turns], passes, MadeByHistory(client.log) - old(MadeByHistory(client.log)),
                      allowance, startPerMinute, client.View(), now)
    {
      ran, turns, end, passes := [], 0, ScriptOver, [];
      ghost var start := client.log;
      var baseline := client.callsMade;
      var perMinute := startPerMinute;
      client.OpenHistoryWindow(now + untilMidnight, baseline + allowance, perMinute);
      while turns < |script|
        invariant turns <= |script|
        invariant Valid() && client.window.Some? && client.window.value.perMinute == perMinute
        invariant client.window.value.ceiling == baseline + allowance && ForwardSyncOnce(ran)
        invariant 0 <= client.callsMade - baseline == MadeByHistory(client.log) - MadeByHistory(start) <= allowance
        invariant LiveCalls(client.log) >= old(LiveCalls(client.log))
        invariant GoesThrough(script[..turns], passes, allowance)
        invariant perMinute == PerMinuteAfter(script[..turns], startPerMinute)
      {
        ghost var before := script[..turns];
        var turn := script[turns];
        turns := turns + 1;
        assert script[..turns] == before + [turn];
        var why;
        why, baseline, perMinute, ran, passes :=
          TakeTurn(turn, baseline, allowance, perMinute, ran, start, startPerMinute, before, passes);
        if why.Some? { return ran, why.value, turns, passes; }
      }
    }

    /**
      One spend, whatever the interleaving: at most `allowance` history calls,
      the window closed at the end, and every call beyond the paced surplus is
      a live one. `remaining` minus the calls made never falls below buffer plus
      full reserve except by live calls. It goes on with its passes until there
      is a reason to end.
     */
    method SpendHistory(remaining: int, fromApi: bool, plan: LiveBudgetPlan, secondsLeft: real, cycleSeconds: real,
                        liveMatches: int, untilMidnight: nat, script: seq<Turn>)
      returns (ran: seq<int>, end: Option<SpendEnd>, turns: nat, ghost passes: seq<PassRecord>)
      requires Valid() && client.window.None?
      modifies this`now, client
      ensures Valid() && client.window.None?
      ensures var surplus := remaining - plan.safetyBuffer - plan.FullReserve();
        var allowance := if fromApi && !plan.overloaded
          then HistoryCallAllowance(surplus, secondsLeft, cycleSeconds, HistoryPerMinute(liveMatches)) else 0;
        var history := MadeByHistory(client.log) - old(MadeByHistory(client.log));
        var live := LiveCalls(client.log) - old(LiveCalls(client.log));
        && 0 <= history <= allowance
        && live >= 0
        && (allowance == 0 ==> client.log == old(client.log))
        && (allowance > 0 ==>
              remaining - (Made(client.log) - old(Made(client.log))) >= plan.safetyBuffer + plan.FullReserve() - live)
        && (end.Some? <==> allowance > 0)
        && (end.Some? ==>
              && turns <= |script| && (end.value.ScriptOver? ==> turns == |script|)
              && EndsFor(end.value, script[..turns], passes, history, allowance, HistoryPerMinute(liveMatches),
                         client.View(), now))
      ensures ForwardSyncOnce(ran)
    {
      ran, end, turns, passes := [], None, 0, [];
      if !fromApi || plan.overloaded { return; }
      var surplus := remaining - plan.safetyBuffer - plan.FullReserve();
      var perMinute := HistoryPerMinute(liveMatches);
      var allowance := HistoryCallAllowance(surplus, secondsLeft, cycleSeconds, perMinute);
      AllowanceWithinSurplus(surplus, secondsLeft, cycleSeconds, perMinute);
      if allowance <= 0 { return; }

      var why;
      ran, why, turns, passes := Interleave(allowance, perMinute, untilMidnight, script);
      client.CloseHistoryWindow();
      end := Some(why);
    }
  }
}
