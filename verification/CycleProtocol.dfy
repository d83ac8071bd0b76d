/**
  The daily model budget under concurrent callers. A caller takes the session
  lock, reads the sum of the day, calls the model, commits the cost and lets
  the lock go; between any two of its steps the others may step too, and it
  may die. A summary reads the sum once and takes no lock. Money is in
  ten-thousandths of a PLN.
 */
module CycleProtocol {
  import opened Prelude
  import opened Coupons

  // ---------------------------------------------------------------- the budget

  function Cap(mode: Mode, limit: int): int {
    if mode == Sandbox then RoundHalfUp(limit as real * 0.70) else limit
  }

  predicate Allows(spent: int, estimate: int, mode: Mode, limit: int) {
    spent + estimate <= Cap(mode, limit)
  }

  function Charge(tokens: nat, price: real): real { tokens as real * price }

  /** Price of a call; prices are PLN per million tokens and thoughts cost as output. */
  function CallCost(input: nat, output: nat, thoughts: nat, priceIn: real, priceOut: real): int {
    RoundHalfUp((Charge(input, priceIn) + Charge(output + thoughts, priceOut)) / 100.0)
  }

  const RESERVED_OUTPUT: nat := 2048

  function EstimatedInput(promptLength: nat): nat { Max(1, promptLength / 4) }

  function Estimate(promptLength: nat, priceIn: real, priceOut: real): int {
    CallCost(EstimatedInput(promptLength), RESERVED_OUTPUT, 0, priceIn, priceOut)
  }

  lemma ChargeMonotone(a: nat, b: nat, price: real)
    requires a <= b && price >= 0.0
    ensures Charge(a, price) <= Charge(b, price)
  {
  }

  lemma CostMonotone(a: real, b: real, c: real, d: real)
    requires a <= c && b <= d
    ensures RoundHalfUp((a + b) / 100.0) <= RoundHalfUp((c + d) / 100.0)
  {
    RoundMonotone((a + b) / 100.0, (c + d) / 100.0);
  }

  /** A call that stays inside the reserved tokens never costs more than its estimate. */
  lemma EstimateCoversReservedUse(promptLength: nat, input: nat, output: nat, thoughts: nat,
                                  priceIn: real, priceOut: real)
    requires priceIn >= 0.0 && priceOut >= 0.0
    requires input <= EstimatedInput(promptLength) && output + thoughts <= RESERVED_OUTPUT
    ensures CallCost(input, output, thoughts, priceIn, priceOut) <= Estimate(promptLength, priceIn, priceOut)
  {
    ChargeMonotone(input, EstimatedInput(promptLength), priceIn);
    ChargeMonotone(output + thoughts, RESERVED_OUTPUT + 0, priceOut);
    CostMonotone(Charge(input, priceIn), Charge(output + thoughts, priceOut),
                 Charge(EstimatedInput(promptLength), priceIn), Charge(RESERVED_OUTPUT + 0, priceOut));
  }

  /** A call costs its tokens at their prices to the nearest ten-thousandth of a PLN; thoughts cost as output. */
  lemma CallCostIsNearest(input: nat, output: nat, thoughts: nat, priceIn: real, priceOut: real)
    requires priceIn >= 0.0 && priceOut >= 0.0
    ensures var cost := CallCost(input, output, thoughts, priceIn, priceOut);
      var tokens := input as real * priceIn + (output + thoughts) as real * priceOut;
      cost as real - 0.5 <= tokens / 1_000_000.0 * 10_000.0 < cost as real + 0.5
  {
    ChargeMonotone(0, input, priceIn);
    ChargeMonotone(0, output + thoughts, priceOut);
  }

  /** The estimate is the price of 2048 tokens out and one in for every four characters, at least one. */
  lemma EstimateIsForTheWholePrompt(promptLength: nat, input: nat, priceIn: real, priceOut: real)
    requires 4 * input <= promptLength < 4 * input + 4
    ensures Estimate(promptLength, priceIn, priceOut)
      == CallCost(if input == 0 then 1 else input, 2048, 0, priceIn, priceOut)
  {
  }

  /** The sandbox may use seven tenths of the limit, to the nearest unit; recommendations all of it. */
  lemma SandboxCapIsSevenTenths(limit: int)
    ensures -5 <= 10 * Cap(Sandbox, limit) - 7 * limit <= 5 && Cap(Recommendation, limit) == limit
  {
  }

  lemma CapWithinLimit(mode: Mode, limit: nat)
    ensures Cap(mode, limit) <= limit
  {
    RoundMonotone(limit as real * 0.70, limit as real);
    RoundOfInteger(limit);
  }

  // --------------------------------------------------------------- the protocol

  /**
    A committed call. `read` is how many rows were committed when the sum it was
    checked against was read; `summary` tells a summary from a cycle.
   */
  datatype Row = Row(day: int, mode: Mode, estimate: nat, cost: nat, read: nat, summary: bool)

  function SpentOn(rows: seq<Row>, day: int): nat {
    if rows == [] then 0
    else SpentOn(rows[..|rows| - 1], day) + if rows[|rows| - 1].day == day then rows[|rows| - 1].cost else 0
  }

  /** The sum a summary reads: it has no end. */
  function SpentFrom(rows: seq<Row>, day: int): nat {
    if rows == [] then 0
    else SpentFrom(rows[..|rows| - 1], day) + if rows[|rows| - 1].day >= day then rows[|rows| - 1].cost else 0
  }

  /** What a summary reads for a day is the sum of that day and of everything dated later. */
  lemma {:induction false} SpentFromAddsLaterDays(rows: seq<Row>, day: int)
    ensures SpentFrom(rows, day) == SpentOn(rows, day) + SpentFrom(rows, day + 1)
  {
    if rows != [] { SpentFromAddsLaterDays(rows[..|rows| - 1], day); }
  }

  lemma {:induction false} NothingLaterReadsTheDay(rows: seq<Row>, day: int)
    requires forall i :: 0 <= i < |rows| ==> rows[i].day < day
    ensures SpentFrom(rows, day) == 0
  {
    if rows != [] { NothingLaterReadsTheDay(rows[..|rows| - 1], day); }
  }

  /** Where a caller stands. `row` is what it will commit. */
  datatype Phase =
    | Idle
    | Locked
    | Cleared(day: int, mode: Mode, estimate: nat, read: nat)
    | Called(row: Row)
    | Finished

  /** Where a batch of summaries stands. It keeps one reading for all its jobs. */
  datatype Batch =
    | Resting
    | Glanced(day: int, spent: nat, read: nat)
    | Paid(day: int, spent: nat, read: nat, estimate: nat, cost: nat)

  /** `lost` are the rows of calls that were made and never committed. */
  datatype World = World(callers: seq<Phase>, holder: Option<nat>, batches: seq<Batch>, rows: seq<Row>, lost: seq<Row>)

  function Begin(callers: nat, batches: nat): World {
    World(seq(callers, _ => Idle), None, seq(batches, _ => Resting), [], [])
  }

  /** What the provider did: a completion with its cost, or an error without usage. */
  datatype Reply = Completion(cost: nat) | ProviderError

  datatype Step =
    | Acquire(who: nat)
    | Read(who: nat, day: int, mode: Mode, estimate: nat)
    | Call(who: nat, reply: Reply)
    | Commit(who: nat)
    | Release(who: nat)
    | Crash(who: nat)
    // The unlocked steps of a batch of summaries. A row is dated when it is stored.
    | Glance(who: nat, day: int)
    | Ask(who: nat, estimate: nat, reply: Reply)
    | Store(who: nat, daysLater: nat)
    | Conflict(who: nat)
    | Quit(who: nat)

  function Put(w: World, who: nat, phase: Phase): World
    requires who < |w.callers|
  {
    w.(callers := w.callers[who := phase])
  }

  function PutBatch(w: World, who: nat, batch: Batch): World
    requires who < |w.batches|
  {
    w.(batches := w.batches[who := batch])
  }

  function Bill(reply: Reply, estimate: nat): nat {
    if reply.Completion? then reply.cost else estimate
  }

  function SummaryRow(b: Batch, daysLater: nat): Row
    requires b.Paid?
  {
    Row(b.day + daysLater, Recommendation, b.estimate, b.cost, b.read, true)
  }

  /** One step of one caller under the lock. */
  function CallerNext(w: World, s: Step, limit: int): World
    requires s.who < |w.callers|
  {
    var phase := w.callers[s.who];
    match s
    case Acquire(who) =>
      if phase.Idle? && w.holder.None? then Put(w, who, Locked).(holder := Some(who)) else w
    case Read(who, day, mode, estimate) =>
      if !phase.Locked? then w
      else if Allows(SpentOn(w.rows, day), estimate, mode, limit) then
        Put(w, who, Cleared(day, mode, estimate, |w.rows|))
      else Put(w, who, Finished)
    case Call(who, reply) =>
      if !phase.Cleared? then w
      else
        var cost := Bill(reply, phase.estimate);
        Put(w, who, Called(Row(phase.day, phase.mode, phase.estimate, cost, phase.read, false)))
    case Commit(who) =>
      if !phase.Called? then w else Put(w, who, Finished).(rows := w.rows + [phase.row])
    case Release(who) =>
      if phase.Finished? then Put(w, who, Idle).(holder := None) else w
    case Crash(who) =>
      var after := Put(w, who, Idle).(holder := if w.holder == Some(who) then None else w.holder);
      if phase.Called? then after.(lost := w.lost + [phase.row]) else after
    case _ => w
  }

  /**
    One step of a batch of summaries. A failed provider is not billed and the
    next job is tried. A row that the database refuses is rolled back with its
    transaction, and the next job is tried with the old reading.
   */
  function BatchNext(w: World, s: Step, limit: int): World
    requires s.who < |w.batches|
  {
    var batch := w.batches[s.who];
    match s
    case Glance(who, day) =>
      if batch.Resting? then PutBatch(w, who, Glanced(day, SpentFrom(w.rows, day), |w.rows|)) else w
    case Ask(who, estimate, reply) =>
      if !batch.Glanced? then w
      else if !Allows(batch.spent, estimate, Recommendation, limit) then PutBatch(w, who, Resting)
      else if reply.ProviderError? then w
      else PutBatch(w, who, Paid(batch.day, batch.spent, batch.read, estimate, reply.cost))
    case Store(who, daysLater) =>
      if !batch.Paid? then w
      else
        var after := PutBatch(w, who, Glanced(batch.day, batch.spent, batch.read));
        after.(rows := w.rows + [SummaryRow(batch, daysLater)])
    case Conflict(who) =>
      if !batch.Paid? then w
      else PutBatch(w, who, Glanced(batch.day, batch.spent, batch.read)).(lost := w.lost + [SummaryRow(batch, 0)])
    case Quit(who) =>
      var after := PutBatch(w, who, Resting);
      if batch.Paid? then after.(lost := w.lost + [SummaryRow(batch, 0)]) else after
    case _ => w
  }

  predicate Unlocked(s: Step) { s.Glance? || s.Ask? || s.Store? || s.Conflict? || s.Quit? }

  /** One step; a step that is not its actor's next one does nothing. */
  function Next(w: World, s: Step, limit: int): World {
    if Unlocked(s) then (if s.who < |w.batches| then BatchNext(w, s, limit) else w)
    else if s.who < |w.callers| then CallerNext(w, s, limit) else w
  }

  function Run(callers: nat, batches: nat, steps: seq<Step>, limit: int): World {
    if steps == [] then Begin(callers, batches)
    else Next(Run(callers, batches, steps[..|steps| - 1], limit), steps[|steps| - 1], limit)
  }

  // ------------------------------------------------------------------ invariant

  /** From row `from` on only summaries were stored. */
  ghost predicate OnlySummaries(rows: seq<Row>, from: nat, to: nat)
    requires to <= |rows|
  {
    forall k: nat :: from <= k < to ==> rows[k].summary
  }

  /** A row was within its cap by the sum it was checked against; a cycle was overtaken by summaries at most. */
  ghost predicate RowChecked(rows: seq<Row>, row: Row, at: nat, limit: int)
    requires at <= |rows|
  {
    && row.read <= at
    && Allows(SpentOn(rows[..row.read], row.day), row.estimate, row.mode, limit)
    && (!row.summary ==> OnlySummaries(rows, row.read, at))
  }

  ghost predicate AllChecked(rows: seq<Row>, limit: int) {
    forall i: nat :: i < |rows| ==> RowChecked(rows, rows[i], i, limit)
  }

  ghost predicate PhaseOk(rows: seq<Row>, phase: Phase, limit: int) {
    match phase
    case Cleared(day, mode, estimate, read) =>
      RowChecked(rows, Row(day, mode, estimate, 0, read, false), |rows|, limit)
    case Called(row) => !row.summary && RowChecked(rows, row, |rows|, limit)
    case _ => true
  }

  ghost predicate BatchOk(rows: seq<Row>, batch: Batch, limit: int) {
    match batch
    case Resting => true
    case Glanced(day, spent, read) => read <= |rows| && spent == SpentFrom(rows[..read], day)
    case Paid(day, spent, read, estimate, cost) =>
      read <= |rows| && spent == SpentFrom(rows[..read], day) && Allows(spent, estimate, Recommendation, limit)
  }

  ghost predicate Safe(w: World, limit: int) {
    && AllChecked(w.rows, limit)
    && (forall p: nat :: p < |w.callers| && !w.callers[p].Idle? ==> w.holder == Some(p))
    && (w.holder.Some? ==> w.holder.value < |w.callers| && !w.callers[w.holder.value].Idle?)
    && (forall p: nat :: p < |w.callers| ==> PhaseOk(w.rows, w.callers[p], limit))
    && (forall b: nat :: b < |w.batches| ==> BatchOk(w.rows, w.batches[b], limit))
    && (w.batches == [] ==> forall i :: 0 <= i < |w.rows| ==> !w.rows[i].summary)
  }

  lemma {:induction false} SpentOnWithinFrom(rows: seq<Row>, day: int, from: int)
    requires from <= day
    ensures SpentOn(rows, day) <= SpentFrom(rows, from)
  {
    if rows != [] { SpentOnWithinFrom(rows[..|rows| - 1], day, from); }
  }

  /** One more row leaves what was checked by earlier readings as it was. */
  lemma CheckSurvives(rows: seq<Row>, more: Row, row: Row, at: nat, limit: int)
    requires at <= |rows| && RowChecked(rows, row, at, limit)
    ensures RowChecked(rows + [more], row, at, limit)
  {
    assert (rows + [more])[..row.read] == rows[..row.read];
  }

  lemma AppendKeepsChecked(rows: seq<Row>, row: Row, limit: int)
    requires AllChecked(rows, limit) && RowChecked(rows, row, |rows|, limit)
    ensures AllChecked(rows + [row], limit)
  {
    forall i: nat | i < |rows + [row]| ensures RowChecked(rows + [row], (rows + [row])[i], i, limit) {
      CheckSurvives(rows, row, (rows + [row])[i], i, limit);
    }
  }

  lemma AppendKeepsBatch(rows: seq<Row>, row: Row, batch: Batch, limit: int)
    requires BatchOk(rows, batch, limit)
    ensures BatchOk(rows + [row], batch, limit)
  {
    if !batch.Resting? { assert (rows + [row])[..batch.read] == rows[..batch.read]; }
  }

  /** A summary may be stored while a cycle is between its reading and its commit. */
  lemma AppendKeepsPhase(rows: seq<Row>, row: Row, phase: Phase, limit: int)
    requires PhaseOk(rows, phase, limit) && row.summary
    ensures PhaseOk(rows + [row], phase, limit)
  {
    match phase
    case Cleared(day, mode, estimate, read) =>
      CheckSurvives(rows, row, Row(day, mode, estimate, 0, read, false), |rows|, limit);
    case Called(mine) => CheckSurvives(rows, row, mine, |rows|, limit);
    case _ =>
  }

  lemma ReadKeepsSafe(w: World, s: Step, limit: int)
    requires Safe(w, limit) && s.Read? && s.who < |w.callers|
    ensures Safe(Next(w, s, limit), limit)
  {
    assert w.rows[..|w.rows|] == w.rows;
  }

  lemma CommitKeepsSafe(w: World, s: Step, limit: int)
    requires Safe(w, limit) && s.Commit? && s.who < |w.callers|
    ensures Safe(Next(w, s, limit), limit)
  {
    if w.callers[s.who].Called? {
      var row := w.callers[s.who].row;
      AppendKeepsChecked(w.rows, row, limit);
      var after := Next(w, s, limit);
      forall b: nat | b < |w.batches| ensures BatchOk(after.rows, after.batches[b], limit) {
        AppendKeepsBatch(w.rows, row, w.batches[b], limit);
      }
      forall p: nat | p < |w.callers| ensures PhaseOk(after.rows, after.callers[p], limit) {
        assert p != s.who ==> w.callers[p].Idle?;
      }
    }
  }

  lemma GlanceKeepsSafe(w: World, s: Step, limit: int)
    requires Safe(w, limit) && s.Glance? && s.who < |w.batches|
    ensures Safe(Next(w, s, limit), limit)
  {
    assert w.rows[..|w.rows|] == w.rows;
  }

  lemma StoreKeepsSafe(w: World, s: Step, limit: int)
    requires Safe(w, limit) && s.Store? && s.who < |w.batches|
    ensures Safe(Next(w, s, limit), limit)
  {
    var batch := w.batches[s.who];
    if batch.Paid? {
      var row := SummaryRow(batch, s.daysLater);
      SpentOnWithinFrom(w.rows[..batch.read], row.day, batch.day);
      AppendKeepsChecked(w.rows, row, limit);
      var after := Next(w, s, limit);
      forall b: nat | b < |w.batches| ensures BatchOk(after.rows, after.batches[b], limit) {
        AppendKeepsBatch(w.rows, row, w.batches[b], limit);
      }
      forall p: nat | p < |w.callers| ensures PhaseOk(after.rows, after.callers[p], limit) {
        AppendKeepsPhase(w.rows, row, w.callers[p], limit);
      }
    }
  }

  /** The steps that store no row. */
  lemma CallerKeepsSafe(w: World, s: Step, limit: int)
    requires Safe(w, limit) && s.who < |w.callers| && (s.Acquire? || s.Call? || s.Release? || s.Crash?)
    ensures Safe(Next(w, s, limit), limit)
  {
  }

  lemma BatchKeepsSafe(w: World, s: Step, limit: int)
    requires Safe(w, limit) && s.who < |w.batches| && (s.Ask? || s.Conflict? || s.Quit?)
    ensures Safe(Next(w, s, limit), limit)
  {
  }

  lemma StepKeepsSafe(w: World, s: Step, limit: int)
    requires Safe(w, limit)
    ensures Safe(Next(w, s, limit), limit)
  {
    if Unlocked(s) {
      if s.who < |w.batches| {
        match s
        case Glance(_, _) => GlanceKeepsSafe(w, s, limit);
        case Store(_, _) => StoreKeepsSafe(w, s, limit);
        case _ => BatchKeepsSafe(w, s, limit);
      }
    } else if s.who < |w.callers| {
      match s
      case Read(_, _, _, _) => ReadKeepsSafe(w, s, limit);
      case Commit(_) => CommitKeepsSafe(w, s, limit);
      case _ => CallerKeepsSafe(w, s, limit);
    }
  }

  lemma StepKeepsBatches(w: World, s: Step, limit: int)
    ensures |Next(w, s, limit).batches| == |w.batches|
  {
  }

  lemma {:induction false} RunKeepsBatches(callers: nat, batches: nat, steps: seq<Step>, limit: int)
    ensures |Run(callers, batches, steps, limit).batches| == batches
  {
    if steps != [] {
      RunKeepsBatches(callers, batches, steps[..|steps| - 1], limit);
      StepKeepsBatches(Run(callers, batches, steps[..|steps| - 1], limit), steps[|steps| - 1], limit);
    }
  }

  lemma BeginIsSafe(callers: nat, batches: nat, limit: int)
    ensures Safe(Begin(callers, batches), limit)
  {
  }

  lemma {:induction false} EveryRunIsSafe(callers: nat, batches: nat, steps: seq<Step>, limit: int)
    ensures Safe(Run(callers, batches, steps, limit), limit)
    ensures |Run(callers, batches, steps, limit).batches| == batches
  {
    RunKeepsBatches(callers, batches, steps, limit);
    if steps == [] {
      BeginIsSafe(callers, batches, limit);
    } else {
      var before := Run(callers, batches, steps[..|steps| - 1], limit);
      EveryRunIsSafe(callers, batches, steps[..|steps| - 1], limit);
      StepKeepsSafe(before, steps[|steps| - 1], limit);
    }
  }

  // ------------------------------------------------------------------- theorems

  /** At most one caller is inside the protocol at a time. */
  lemma OneCallerAtATime(callers: nat, batches: nat, steps: seq<Step>, limit: int, p: nat, q: nat)
    requires p < |Run(callers, batches, steps, limit).callers| && q < |Run(callers, batches, steps, limit).callers|
    ensures var w := Run(callers, batches, steps, limit);
      !w.callers[p].Idle? && !w.callers[q].Idle? ==> p == q
  {
    EveryRunIsSafe(callers, batches, steps, limit);
  }

  /** The lock is held exactly by the caller inside, so whenever nobody is inside anybody may enter. */
  lemma LockIsNeverOrphaned(callers: nat, batches: nat, steps: seq<Step>, limit: int, p: nat)
    requires p < |Run(callers, batches, steps, limit).callers|
    ensures var w := Run(callers, batches, steps, limit);
      && (w.holder == Some(p) <==> !w.callers[p].Idle?)
      && ((forall q: nat :: q < |w.callers| ==> w.callers[q].Idle?) ==>
            Next(w, Acquire(p), limit).callers[p] == Locked)
  {
    EveryRunIsSafe(callers, batches, steps, limit);
    var w := Run(callers, batches, steps, limit);
    if forall q: nat :: q < |w.callers| ==> w.callers[q].Idle? { assert w.holder.None?; }
  }

  /** Row `i` was within its cap by the sum of everything committed before it. */
  predicate RowWasAllowed(rows: seq<Row>, i: nat, limit: int)
    requires i < |rows|
  {
    Allows(SpentOn(rows[..i], rows[i].day), rows[i].estimate, rows[i].mode, limit)
  }

  ghost predicate AllAllowed(rows: seq<Row>, limit: int) {
    forall i: nat :: i < |rows| ==> RowWasAllowed(rows, i, limit)
  }

  lemma NothingOvertakes(rows: seq<Row>, from: nat, to: nat)
    requires from <= to <= |rows| && OnlySummaries(rows, from, to)
    requires forall i :: 0 <= i < |rows| ==> !rows[i].summary
    ensures from == to
  {
    var next := if from < |rows| then rows[from].summary else true;
  }

  /** Without summaries the sum a caller read is the sum it commits to. */
  lemma CyclesWereAllowed(callers: nat, steps: seq<Step>, limit: int)
    ensures AllAllowed(Run(callers, 0, steps, limit).rows, limit)
  {
    EveryRunIsSafe(callers, 0, steps, limit);
    var rows := Run(callers, 0, steps, limit).rows;
    forall i: nat | i < |rows| ensures RowWasAllowed(rows, i, limit) {
      assert RowChecked(rows, rows[i], i, limit);
      NothingOvertakes(rows, rows[i].read, i);
    }
  }

  /** The last row of a day closes its sum. */
  lemma {:induction false} LastRowOfDay(rows: seq<Row>, day: int) returns (i: nat)
    ensures SpentOn(rows, day) != 0 ==>
      i < |rows| && rows[i].day == day && SpentOn(rows, day) == SpentOn(rows[..i], day) + rows[i].cost
  {
    i := 0;
    if rows != [] {
      var n := |rows| - 1;
      if rows[n].day == day {
        i := n;
      } else {
        i := LastRowOfDay(rows[..n], day);
        if i < n { assert rows[..n][..i] == rows[..i]; }
      }
    }
  }

  lemma {:induction false} SpentSplits(rows: seq<Row>, at: nat, day: int)
    requires at <= |rows|
    ensures SpentOn(rows, day) == SpentOn(rows[..at], day) + SpentOn(rows[at..], day)
  {
    if at < |rows| {
      var n := |rows| - 1;
      assert rows[..n][..at] == rows[..at] && rows[at..][..n - at] == rows[..n][at..];
      SpentSplits(rows[..n], at, day);
    } else {
      assert rows[..at] == rows;
    }
  }

  /** What others stored on row `i`'s day between its reading and its own storing. */
  function Overtaking(rows: seq<Row>, i: nat): nat
    requires i < |rows| && rows[i].read <= i
  {
    SpentOn(rows[rows[i].read..i], rows[i].day)
  }

  /**
    Any run with summaries in it: the cost of a day is at most the cap of its
    last call, that call's excess over its estimate, and what overtook it. It
    keeps the bound without the last term exactly when a fresh reading would
    still have allowed the call. Only summaries can overtake a cycle.
   */
  lemma DayWithSummaries(callers: nat, batches: nat, steps: seq<Step>, limit: int, day: int) returns (i: nat)
    ensures var rows := Run(callers, batches, steps, limit).rows;
      SpentOn(rows, day) != 0 ==>
        && i < |rows| && rows[i].day == day && rows[i].read <= i
        && SpentOn(rows, day) <= Cap(rows[i].mode, limit) + (rows[i].cost - rows[i].estimate) + Overtaking(rows, i)
        && (SpentOn(rows, day) <= Cap(rows[i].mode, limit) + (rows[i].cost - rows[i].estimate)
            <==> RowWasAllowed(rows, i, limit))
        && (!rows[i].summary ==> OnlySummaries(rows, rows[i].read, i))
  {
    EveryRunIsSafe(callers, batches, steps, limit);
    var rows := Run(callers, batches, steps, limit).rows;
    i := LastRowOfDay(rows, day);
    if SpentOn(rows, day) != 0 {
      assert RowChecked(rows, rows[i], i, limit);
      SpentSplits(rows[..i], rows[i].read, day);
      assert rows[..i][..rows[i].read] == rows[..rows[i].read] && rows[..i][rows[i].read..] == rows[rows[i].read..i];
    }
  }

  /**
    However the callers interleave and crash, the committed cost of a day is at
    most the cap of one of its calls and what that one call cost above its
    estimate.
   */
  lemma DayStaysUnderCapAndOneExcess(callers: nat, steps: seq<Step>, limit: int, day: int) returns (i: nat)
    ensures var rows := Run(callers, 0, steps, limit).rows;
      SpentOn(rows, day) != 0 ==>
        && i < |rows| && rows[i].day == day
        && SpentOn(rows, day) <= Cap(rows[i].mode, limit) + (rows[i].cost - rows[i].estimate)
  {
    i := DayWithSummaries(callers, 0, steps, limit, day);
    CyclesWereAllowed(callers, steps, limit);
  }

  /** When no call costs more than its estimate, no day costs more than the limit. */
  lemma DayWithinLimit(callers: nat, steps: seq<Step>, limit: nat, day: int)
    requires var rows := Run(callers, 0, steps, limit).rows;
      forall i :: 0 <= i < |rows| ==> rows[i].cost <= rows[i].estimate
    ensures SpentOn(Run(callers, 0, steps, limit).rows, day) <= limit
  {
    var i := DayStaysUnderCapAndOneExcess(callers, steps, limit, day);
    CapWithinLimit(Sandbox, limit);
  }

  /**
    No sandbox call starts when the sum it read and its estimate pass the 70
    percent share; what is spent by then passes it at most by the summaries
    that overtook the reading, and by nothing without summaries.
   */
  lemma SandboxLeavesItsShare(callers: nat, batches: nat, steps: seq<Step>, limit: int, who: nat)
    requires who < |Run(callers, batches, steps, limit).callers|
    ensures var w := Run(callers, batches, steps, limit);
      var phase := w.callers[who];
      phase.Cleared? && phase.mode == Sandbox ==>
        && phase.read <= |w.rows| && OnlySummaries(w.rows, phase.read, |w.rows|)
        && SpentOn(w.rows[..phase.read], phase.day) + phase.estimate <= Cap(Sandbox, limit)
        && SpentOn(w.rows, phase.day) + phase.estimate
           <= Cap(Sandbox, limit) + SpentOn(w.rows[phase.read..], phase.day)
        && (batches == 0 ==> SpentOn(w.rows, phase.day) + phase.estimate <= Cap(Sandbox, limit))
  {
    EveryRunIsSafe(callers, batches, steps, limit);
    var w := Run(callers, batches, steps, limit);
    var phase := w.callers[who];
    if phase.Cleared? {
      assert PhaseOk(w.rows, phase, limit);
      SpentSplits(w.rows, phase.read, phase.day);
      if batches == 0 { NothingOvertakes(w.rows, phase.read, |w.rows|); }
    }
  }

  // ------------------------------------------------------------------ paid calls

  /** What a step pays for on a day: a completed call, or an estimate when the provider failed. */
  function PaidBy(w: World, s: Step, day: int): nat {
    if s.Call? && s.who < |w.callers| && w.callers[s.who].Cleared? && w.callers[s.who].day == day
    then Bill(s.reply, w.callers[s.who].estimate) else 0
  }

  /** What the cycles of a run paid on a day. */
  function PaidOn(callers: nat, steps: seq<Step>, limit: int, day: int): nat {
    if steps == [] then 0
    else
      PaidOn(callers, steps[..|steps| - 1], limit, day)
      + PaidBy(Run(callers, 0, steps[..|steps| - 1], limit), steps[|steps| - 1], day)
  }

  lemma SpentOnOneMore(rows: seq<Row>, row: Row, day: int)
    ensures SpentOn(rows + [row], day) == SpentOn(rows, day) + if row.day == day then row.cost else 0
  {
    assert (rows + [row])[..|rows|] == rows;
  }

  function FlightOf(phase: Phase, day: int): nat {
    if phase.Called? && phase.row.day == day then phase.row.cost else 0
  }

  /** Paid for on the day and not yet committed by the caller that holds the lock. */
  function InFlight(w: World, day: int): nat {
    if w.holder.Some? && w.holder.value < |w.callers| then FlightOf(w.callers[w.holder.value], day) else 0
  }

  /** Only the holder is in flight, so whoever steps, its own phase is all that moves. */
  lemma FlightIsTheActors(w: World, s: Step, day: int, limit: int)
    requires Safe(w, limit) && s.who < |w.callers| && !w.callers[s.who].Idle?
    ensures InFlight(w, day) == FlightOf(w.callers[s.who], day)
  {
  }

  function Accounted(w: World, day: int): nat {
    SpentOn(w.rows, day) + InFlight(w, day) + SpentOn(w.lost, day)
  }

  lemma AcquireAccounts(w: World, s: Step, day: int, limit: int)
    requires Safe(w, limit) && s.who < |w.callers| && (s.Acquire? || s.Release?)
    ensures Accounted(Next(w, s, limit), day) == Accounted(w, day)
  {
    if s.Release? && w.callers[s.who].Finished? { FlightIsTheActors(w, s, day, limit); }
  }

  lemma ReadAccounts(w: World, s: Step, day: int, limit: int)
    requires Safe(w, limit) && s.who < |w.callers| && s.Read?
    ensures Accounted(Next(w, s, limit), day) == Accounted(w, day)
  {
    if w.callers[s.who].Locked? { FlightIsTheActors(w, s, day, limit); }
  }

  lemma CallAccounts(w: World, s: Step, day: int, limit: int)
    requires Safe(w, limit) && s.who < |w.callers| && s.Call?
    ensures Accounted(Next(w, s, limit), day) == Accounted(w, day) + PaidBy(w, s, day)
  {
    if w.callers[s.who].Cleared? { FlightIsTheActors(w, s, day, limit); }
  }

  lemma CommitAccounts(w: World, s: Step, day: int, limit: int)
    requires Safe(w, limit) && s.who < |w.callers| && s.Commit?
    ensures Accounted(Next(w, s, limit), day) == Accounted(w, day)
  {
    if w.callers[s.who].Called? {
      FlightIsTheActors(w, s, day, limit);
      SpentOnOneMore(w.rows, w.callers[s.who].row, day);
    }
  }

  lemma CrashAccounts(w: World, s: Step, day: int, limit: int)
    requires Safe(w, limit) && s.who < |w.callers| && s.Crash?
    ensures Accounted(Next(w, s, limit), day) == Accounted(w, day)
  {
    if !w.callers[s.who].Idle? { FlightIsTheActors(w, s, day, limit); }
    if w.callers[s.who].Called? { SpentOnOneMore(w.lost, w.callers[s.who].row, day); }
  }

  lemma StepAccounts(w: World, s: Step, day: int, limit: int)
    requires Safe(w, limit) && w.batches == []
    ensures Accounted(Next(w, s, limit), day) == Accounted(w, day) + PaidBy(w, s, day)
  {
    if !Unlocked(s) && s.who < |w.callers| {
      match s
      case Read(_, _, _, _) => ReadAccounts(w, s, day, limit);
      case Call(_, _) => CallAccounts(w, s, day, limit);
      case Commit(_) => CommitAccounts(w, s, day, limit);
      case Crash(_) => CrashAccounts(w, s, day, limit);
      case _ => AcquireAccounts(w, s, day, limit);
    }
  }

  /** Every call paid on a day is in its sum, in flight, or lost with a caller that died before its commit. */
  lemma {:induction false} PaidIsAccountedFor(callers: nat, steps: seq<Step>, limit: int, day: int)
    ensures var w := Run(callers, 0, steps, limit);
      PaidOn(callers, steps, limit, day) == SpentOn(w.rows, day) + InFlight(w, day) + SpentOn(w.lost, day)
  {
    if steps != [] {
      var before := steps[..|steps| - 1];
      PaidIsAccountedFor(callers, before, limit, day);
      EveryRunIsSafe(callers, 0, before, limit);
      StepAccounts(Run(callers, 0, before, limit), steps[|steps| - 1], day, limit);
    }
  }

  function From(w: World, steps: seq<Step>, limit: int): World {
    if steps == [] then w else Next(From(w, steps[..|steps| - 1], limit), steps[|steps| - 1], limit)
  }

  /** None of these steps is one of the caller's own. */
  predicate LeaveAlone(steps: seq<Step>, who: nat) {
    forall i :: 0 <= i < |steps| ==> Unlocked(steps[i]) || steps[i].who != who
  }

  lemma {:induction false} OthersLeaveTheCaller(w: World, steps: seq<Step>, who: nat, limit: int)
    requires who < |w.callers| && LeaveAlone(steps, who)
    ensures var after := From(w, steps, limit);
      who < |after.callers| && after.callers[who] == w.callers[who]
  {
    if steps != [] { OthersLeaveTheCaller(w, steps[..|steps| - 1], who, limit); }
  }

  /**
    Whoever was cleared and calls the model adds to its day, when it commits,
    what a completed call cost, and its whole estimate when the provider failed,
    whatever others do in between; no other day changes.
   */
  lemma CallIsBilledOnCommit(w: World, who: nat, reply: Reply, others: seq<Step>, limit: int, day: int)
    requires who < |w.callers| && w.callers[who].Cleared? && LeaveAlone(others, who)
    ensures var mid := From(Next(w, Call(who, reply), limit), others, limit);
      var owed := match reply { case Completion(c) => c case ProviderError => w.callers[who].estimate };
      SpentOn(Next(mid, Commit(who), limit).rows, day)
      == SpentOn(mid.rows, day) + if day == w.callers[who].day then owed else 0
  {
    var called := Next(w, Call(who, reply), limit);
    OthersLeaveTheCaller(called, others, who, limit);
    var mid := From(called, others, limit);
    SpentOnOneMore(mid.rows, mid.callers[who].row, day);
  }

  /** A summary is billed once, on the day its row is stored, whatever its reading was taken on. */
  lemma SummaryIsBilledOnItsDay(w: World, who: nat, daysLater: nat, limit: int, day: int)
    requires who < |w.batches| && w.batches[who].Paid?
    ensures var b := w.batches[who];
      SpentOn(Next(w, Store(who, daysLater), limit).rows, day)
      == SpentOn(w.rows, day) + if day == b.day + daysLater then b.cost else 0
  {
    SpentOnOneMore(w.rows, SummaryRow(w.batches[who], daysLater), day);
  }

  /** A summary whose provider fails is billed nowhere: the whole state stays as it was. */
  lemma FailedSummaryIsFree(w: World, who: nat, estimate: nat, limit: int)
    requires who < |w.batches| && w.batches[who].Glanced?
    requires Allows(w.batches[who].spent, estimate, Recommendation, limit)
    ensures Next(w, Ask(who, estimate, ProviderError), limit) == w
  {
  }

  /** The actor ends between a paid call and its commit, or the row of a paid summary is refused. */
  predicate LosesPaid(w: World, s: Step) {
    || (s.Crash? && s.who < |w.callers| && w.callers[s.who].Called?)
    || ((s.Quit? || s.Conflict?) && s.who < |w.batches| && w.batches[s.who].Paid?)
  }

  lemma StepLosesIff(w: World, s: Step, limit: int)
    ensures Next(w, s, limit).lost != [] <==> w.lost != [] || LosesPaid(w, s)
  {
  }

  /** Some step of the run ended an actor between a call and its commit, or had a row refused. */
  ghost predicate SomeStepLoses(callers: nat, batches: nat, steps: seq<Step>, limit: int) {
    if steps == [] then false
    else
      var before := steps[..|steps| - 1];
      || SomeStepLoses(callers, batches, before, limit)
      || LosesPaid(Run(callers, batches, before, limit), steps[|steps| - 1])
  }

  lemma RunLosesIff(callers: nat, batches: nat, steps: seq<Step>, limit: int)
    requires steps != []
    ensures var before := Run(callers, batches, steps[..|steps| - 1], limit);
      Run(callers, batches, steps, limit).lost != [] <==> before.lost != [] || LosesPaid(before, steps[|steps| - 1])
  {
    StepLosesIff(Run(callers, batches, steps[..|steps| - 1], limit), steps[|steps| - 1], limit);
  }

  /** A run lost a paid call exactly when in it somebody ended between call and commit, or a row was refused. */
  lemma {:induction false} LosesIffEndedOrRefused(callers: nat, batches: nat, steps: seq<Step>, limit: int)
    ensures Run(callers, batches, steps, limit).lost != [] <==> SomeStepLoses(callers, batches, steps, limit)
  {
    if steps != [] {
      LosesIffEndedOrRefused(callers, batches, steps[..|steps| - 1], limit);
      RunLosesIff(callers, batches, steps, limit);
    }
  }

  /** A caller that dies after the call leaves nothing in the sum of the day. */
  lemma CrashLosesThePaidCost()
    ensures var steps := [Acquire(0), Read(0, 1, Recommendation, 500), Call(0, Completion(500)), Crash(0)];
      PaidOn(1, steps, 100000, 1) == 500 && SpentOn(Run(1, 0, steps, 100000).rows, 1) == 0
  {
    var s1 := [Acquire(0)];
    var s2 := s1 + [Read(0, 1, Recommendation, 500)];
    var s3 := s2 + [Call(0, Completion(500))];
    StartOfCrash(s1);
    PaidMore(1, s1, Read(0, 1, Recommendation, 500), 100000, 1);
    PaidMore(1, s2, Call(0, Completion(500)), 100000, 1);
    CrashAfterCall(s3);
    assert s3 + [Crash(0)] == [Acquire(0), Read(0, 1, Recommendation, 500), Call(0, Completion(500)), Crash(0)];
  }

  lemma CrashAfterCall(steps: seq<Step>)
    requires Run(1, 0, steps, 100000).callers == [Called(Row(1, Recommendation, 500, 500, 0, false))]
    requires Run(1, 0, steps, 100000).rows == [] && PaidOn(1, steps, 100000, 1) == 500
    ensures PaidOn(1, steps + [Crash(0)], 100000, 1) == 500
    ensures SpentOn(Run(1, 0, steps + [Crash(0)], 100000).rows, 1) == 0
  {
    PaidMore(1, steps, Crash(0), 100000, 1);
  }

  lemma StartOfCrash(steps: seq<Step>)
    requires steps == [Acquire(0)]
    ensures Run(1, 0, steps, 100000) == World([Locked], Some(0), [], [], []) && PaidOn(1, steps, 100000, 1) == 0
  {
    assert steps[..0] == [];
  }

  lemma PaidMore(callers: nat, steps: seq<Step>, s: Step, limit: int, day: int)
    ensures Run(callers, 0, steps + [s], limit) == Next(Run(callers, 0, steps, limit), s, limit)
    ensures PaidOn(callers, steps + [s], limit, day)
      == PaidOn(callers, steps, limit, day) + PaidBy(Run(callers, 0, steps, limit), s, day)
  {
    assert (steps + [s])[..|steps|] == steps;
  }

  // ----------------------------------------------------------- refused summaries

  /** What a completed summary proposes, when it parses: its odds floor, which is above 1. */
  datatype Filing = Filing(minOdd: Option<real>, nameTaken: bool)

  /** A floor is stored in thousandths and must still be above 1; a strategy's name must be free. */
  predicate FilingRefused(f: Filing) {
    f.minOdd.Some? && (RoundHalfUp(f.minOdd.value * 1000.0) <= 1000 || f.nameTaken)
  }

  function FilingStep(who: nat, f: Filing, daysLater: nat): Step {
    if FilingRefused(f) then Conflict(who) else Store(who, daysLater)
  }

  /**
    A floor that passed validation is refused by the database exactly when it is
    below 1.0005 or the name is taken; a reply that proposes nothing never is.
   */
  lemma FloorRefusedIff(minOdd: real, nameTaken: bool)
    requires minOdd > 1.0
    ensures FilingRefused(Filing(Some(minOdd), nameTaken)) <==> nameTaken || minOdd < 1.0005
    ensures !FilingRefused(Filing(None, nameTaken))
  {
    if minOdd < 1.0005 {
      assert minOdd * 1000.0 + 0.5 < 1001.0;
    } else {
      RoundMonotone(1000.5, minOdd * 1000.0);
      assert RoundHalfUp(1000.5) == 1001;
    }
  }

  /** A summary with a floor of 1.0004: paid, refused, in no sum, and the batch goes on with its old reading. */
  lemma RefusedSummaryLosesThePaidCost(filing: Filing)
    requires filing == Filing(Some(1.0004), false)
    ensures var steps := [Glance(0, 1), Ask(0, 500, Completion(500)), FilingStep(0, filing, 0)];
      var w := Run(0, 1, steps, 100000);
      && w.lost == [Row(1, Recommendation, 500, 500, 0, true)]
      && SpentOn(w.rows, 1) == 0 && w.batches == [Glanced(1, 0, 0)]
  {
    FloorRefusedIff(1.0004, false);
    var s1 := [Glance(0, 1)];
    var s2 := s1 + [Ask(0, 500, Completion(500))];
    var s3 := s2 + [Conflict(0)];
    assert s3 == [Glance(0, 1), Ask(0, 500, Completion(500)), FilingStep(0, filing, 0)];
    assert s1[..0] == [] && s2[..1] == s1 && s3[..2] == s2;
    assert Run(0, 1, s1, 100000) == World([], None, [Glanced(1, 0, 0)], [], []);
    assert Run(0, 1, s2, 100000) == World([], None, [Paid(1, 0, 0, 500, 500)], [], []);
  }

  /** The three steps one caller takes while it holds the lock, undisturbed. */
  function LockedSteps(w: World, who: nat, day: int, mode: Mode, estimate: nat, reply: Reply, limit: int): World {
    Next(Next(Next(w, Read(who, day, mode, estimate), limit), Call(who, reply), limit), Commit(who), limit)
  }

  /** Undisturbed, the three steps store one row, or none when the budget refuses. */
  lemma LockedStepsStore(rows: seq<Row>, day: int, mode: Mode, estimate: nat, reply: Reply, limit: int)
    ensures LockedSteps(World([Locked], Some(0), [], rows, []), 0, day, mode, estimate, reply, limit).rows
      == if Allows(SpentOn(rows, day), estimate, mode, limit)
         then rows + [Row(day, mode, estimate, if reply.Completion? then reply.cost else estimate, |rows|, false)]
         else rows
  {
  }

  /** The table of cycles. */
  class Cycles {
    var rows: seq<Row>

    constructor ()
      ensures rows == []
    {
      rows := [];
    }

    method SpentToday(day: int) returns (spent: nat)
      ensures spent == SpentOn(rows, day)
    {
      spent := 0;
      for i := 0 to |rows|
        invariant spent == SpentOn(rows[..i], day)
      {
        assert rows[..i + 1][..i] == rows[..i];
        if rows[i].day == day { spent := spent + rows[i].cost; }
      }
      assert rows[..|rows|] == rows;
    }

    /** The body under the lock: exactly the read, call and commit steps of the protocol. */
    method RunLocked(day: int, mode: Mode, estimate: nat, reply: Reply, limit: int) returns (called: bool)
      modifies this
      ensures called <==> Allows(SpentOn(old(rows), day), estimate, mode, limit)
      ensures var start := World([Locked], Some(0), [], old(rows), []);
        rows == LockedSteps(start, 0, day, mode, estimate, reply, limit).rows
      ensures !called ==> rows == old(rows)
      ensures called && reply.Completion? ==> SpentOn(rows, day) == SpentOn(old(rows), day) + reply.cost
      ensures called && reply.ProviderError? ==> SpentOn(rows, day) == SpentOn(old(rows), day) + estimate
      ensures AllAllowed(old(rows), limit) ==> AllAllowed(rows, limit)
    {
      LockedStepsStore(rows, day, mode, estimate, reply, limit);
      var spent := SpentToday(day);
      if !Allows(spent, estimate, mode, limit) { return false; }
      var cost := if reply.Completion? then reply.cost else estimate;
      var row := Row(day, mode, estimate, cost, |rows|, false);
      if AllAllowed(rows, limit) { CommitKeepsAllowed(rows, row, limit); }
      SpentOnOneMore(rows, row, day);
      rows := rows + [row];
      called := true;
    }
  }

  lemma CommitKeepsAllowed(rows: seq<Row>, row: Row, limit: int)
    requires AllAllowed(rows, limit) && Allows(SpentOn(rows, row.day), row.estimate, row.mode, limit)
    ensures AllAllowed(rows + [row], limit)
  {
    var all := rows + [row];
    forall i: nat | i < |all| ensures RowWasAllowed(all, i, limit) {
      if i < |rows| {
        assert RowWasAllowed(rows, i, limit) && all[..i] == rows[..i];
      } else {
        assert all[..i] == rows;
      }
    }
  }

  // ------------------------------------------------------------------- summaries

  /**
    A summary job; `cost` is None when the provider fails, and then nothing is
    billed. What is paid reaches the sum only when its row is stored.
   */
  datatype Job = Job(estimate: nat, cost: Option<nat>, filing: Filing)

  predicate Stored(job: Job) { job.cost.Some? && !FilingRefused(job.filing) }

  /** The jobs before the first one the budget refuses, each checked against the same reading of the sum. */
  function Attempted(spent: int, jobs: seq<Job>, limit: int): (n: nat)
    ensures n <= |jobs|
    ensures forall i :: 0 <= i < n ==> Allows(spent, jobs[i].estimate, Recommendation, limit)
  {
    if jobs == [] || !Allows(spent, jobs[0].estimate, Recommendation, limit) then 0
    else 1 + Attempted(spent, jobs[1..], limit)
  }

  function Billed(jobs: seq<Job>): nat {
    if jobs == [] then 0
    else Billed(jobs[..|jobs| - 1]) + if Stored(jobs[|jobs| - 1]) then jobs[|jobs| - 1].cost.value else 0
  }

  lemma {:induction false} AttemptedStops(spent: int, jobs: seq<Job>, limit: int, n: nat)
    requires n <= |jobs| && forall i :: 0 <= i < n ==> Allows(spent, jobs[i].estimate, Recommendation, limit)
    requires n == |jobs| || !Allows(spent, jobs[n].estimate, Recommendation, limit)
    ensures Attempted(spent, jobs, limit) == n
  {
    if n > 0 { AttemptedStops(spent, jobs[1..], limit, n - 1); }
  }

  /** The loop of `_summarize`: the sum is read once, outside the lock, before the first job. */
  method Summarize(spent: int, jobs: seq<Job>, limit: int) returns (added: nat, attempted: nat)
    ensures attempted == Attempted(spent, jobs, limit) <= |jobs|
    ensures added == Billed(jobs[..attempted])
  {
    added, attempted := 0, 0;
    while attempted < |jobs|
      invariant attempted <= |jobs|
      invariant forall i :: 0 <= i < attempted ==> Allows(spent, jobs[i].estimate, Recommendation, limit)
      invariant added == Billed(jobs[..attempted])
    {
      var job := jobs[attempted];
      if !Allows(spent, job.estimate, Recommendation, limit) { break; }
      assert jobs[..attempted + 1][..attempted] == jobs[..attempted];
      if Stored(job) { added := added + job.cost.value; }
      attempted := attempted + 1;
    }
    AttemptedStops(spent, jobs, limit, attempted);
  }

  /**
    A batch whose last job was stored obeys the bound of a cycle exactly when a
    fresh reading before that job would still have allowed it.
   */
  lemma BatchKeepsTheCapIff(spent: int, jobs: seq<Job>, limit: int)
    requires var n := Attempted(spent, jobs, limit); n > 0 && Stored(jobs[n - 1])
    ensures var n := Attempted(spent, jobs, limit);
      var last := jobs[n - 1];
      spent + Billed(jobs[..n]) <= limit + (last.cost.value - last.estimate)
      <==> Allows(spent + Billed(jobs[..n - 1]), last.estimate, Recommendation, limit)
  {
    var n := Attempted(spent, jobs, limit);
    assert jobs[..n][..n - 1] == jobs[..n - 1];
  }

  /** Reading once is harmless for a single job: nothing was stored since. */
  lemma OneSummaryObeysTheCap(spent: int, job: Job, limit: int)
    requires Attempted(spent, [job], limit) == 1 && Stored(job)
    ensures spent + Billed([job]) <= limit + (job.cost.value - job.estimate)
  {
    BatchKeepsTheCapIff(spent, [job], limit);
    assert [job][..1] == [job] && [job][..0] == [];
  }

  /** What the batch reads is what its steps store: job by job, as one actor of the protocol. */
  function BatchSteps(who: nat, jobs: seq<Job>): seq<Step> {
    if jobs == [] then []
    else
      var job := jobs[|jobs| - 1];
      var reply := if job.cost.Some? then Completion(job.cost.value) else ProviderError;
      BatchSteps(who, jobs[..|jobs| - 1]) + [Ask(who, job.estimate, reply), FilingStep(who, job.filing, 0)]
  }

  lemma OneStepMore(w: World, steps: seq<Step>, s: Step, limit: int)
    ensures From(w, steps + [s], limit) == Next(From(w, steps, limit), s, limit)
  {
    assert (steps + [s])[..|steps|] == steps;
  }

  lemma TwoSteps(w: World, steps: seq<Step>, a: Step, b: Step, limit: int)
    ensures From(w, steps + [a, b], limit) == Next(Next(From(w, steps, limit), a, limit), b, limit)
  {
    OneStepMore(w, steps, a, limit);
    OneStepMore(w, steps + [a], b, limit);
    assert steps + [a, b] == steps + [a] + [b];
  }

  /** The two steps of one job. */
  function AfterJob(w: World, who: nat, job: Job, limit: int): World {
    var reply := if job.cost.Some? then Completion(job.cost.value) else ProviderError;
    Next(Next(w, Ask(who, job.estimate, reply), limit), FilingStep(who, job.filing, 0), limit)
  }

  lemma OneJobMore(w: World, who: nat, jobs: seq<Job>, limit: int)
    requires jobs != []
    ensures From(w, BatchSteps(who, jobs), limit)
      == AfterJob(From(w, BatchSteps(who, jobs[..|jobs| - 1]), limit), who, jobs[|jobs| - 1], limit)
  {
    var n := |jobs| - 1;
    var reply := if jobs[n].cost.Some? then Completion(jobs[n].cost.value) else ProviderError;
    TwoSteps(w, BatchSteps(who, jobs[..n]), Ask(who, jobs[n].estimate, reply), FilingStep(who, jobs[n].filing, 0),
             limit);
  }

  /** Undisturbed, the steps of allowed jobs add to the day exactly what the loop bills. */
  lemma {:induction false} BatchStepsBill(w: World, who: nat, jobs: seq<Job>, limit: int)
    requires who < |w.batches| && w.batches[who].Glanced?
    requires forall i :: 0 <= i < |jobs| ==> Allows(w.batches[who].spent, jobs[i].estimate, Recommendation, limit)
    ensures var after := From(w, BatchSteps(who, jobs), limit);
      && after.batches == w.batches
      && SpentOn(after.rows, w.batches[who].day) == SpentOn(w.rows, w.batches[who].day) + Billed(jobs)
  {
    if jobs != [] {
      var n := |jobs| - 1;
      BatchStepsBill(w, who, jobs[..n], limit);
      OneJobMore(w, who, jobs, limit);
      OneJobBills(From(w, BatchSteps(who, jobs[..n]), limit), who, jobs[n], limit);
    }
  }

  lemma OneJobBills(w: World, who: nat, job: Job, limit: int)
    requires who < |w.batches| && w.batches[who].Glanced?
    requires Allows(w.batches[who].spent, job.estimate, Recommendation, limit)
    ensures var after := AfterJob(w, who, job, limit);
      && after.batches == w.batches
      && SpentOn(after.rows, w.batches[who].day)
         == SpentOn(w.rows, w.batches[who].day) + if Stored(job) then job.cost.value else 0
  {
    var batch := w.batches[who];
    if job.cost.Some? {
      var paid := Paid(batch.day, batch.spent, batch.read, job.estimate, job.cost.value);
      var asked := Next(w, Ask(who, job.estimate, Completion(job.cost.value)), limit);
      assert asked.batches[who] == paid && asked.rows == w.rows;
      SpentOnOneMore(w.rows, SummaryRow(paid, 0), batch.day);
      assert Next(asked, FilingStep(who, job.filing, 0), limit).batches == w.batches;
    }
  }

  /** With two jobs the limit can be spent twice over, at any limit and with exact estimates. */
  lemma TwoSummariesSpendTheLimitTwice(limit: nat)
    ensures var job := Job(limit, Some(limit), Filing(None, false));
      var jobs := [job, job];
      var start := Next(Begin(0, 1), Glance(0, 1), limit);
      Attempted(0, jobs, limit) == 2
      && SpentOn(From(start, BatchSteps(0, jobs), limit).rows, 1) == 2 * limit
  {
    var job := Job(limit, Some(limit), Filing(None, false));
    var jobs := [job, job];
    assert jobs[..1] == [job] && [job][..0] == [];
    assert Billed([job]) == limit && Billed(jobs) == Billed([job]) + limit;
    AttemptedStops(0, jobs, limit, 2);
    var start := Next(Begin(0, 1), Glance(0, 1), limit);
    assert start.batches == [Glanced(1, 0, 0)];
    BatchStepsBill(start, 0, jobs, limit);
  }
}
