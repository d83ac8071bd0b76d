/**
  The client's rate windows. `Gate` is the reference: it remembers every call
  ever made and counts the log. `FootballClient` is the client itself, which
  keeps three pruned deques and a counter, and is proved to decide the same.
 */
module RateWindow {
  import opened Prelude

  const MINUTE := 60_000_000   // one minute of the monotonic clock, in microseconds

  datatype Call = Call(at: int, history: bool)

  /** Every call so far, the latest one outermost. */
  datatype Log = Start | Then(past: Log, last: Call)

  datatype HistoryWindow = HistoryWindow(deadline: int, ceiling: int, perMinute: int)

  datatype Gate = Gate(log: Log, window: Option<HistoryWindow>, vendorPerMinute: int)

  datatype Kind = Every | HistoryOnly | LiveOnly

  predicate Counts(k: Kind, c: Call) {
    match k
    case Every => true
    case HistoryOnly => c.history
    case LiveOnly => !c.history
  }

  function Made(log: Log): nat {
    if log.Start? then 0 else Made(log.past) + 1
  }

  function MadeByHistory(log: Log): nat {
    if log.Start? then 0 else MadeByHistory(log.past) + (if log.last.history then 1 else 0)
  }

  /** Calls of kind `k` made at `since` or later. */
  function CountSince(log: Log, k: Kind, since: int): nat {
    if log.Start? then 0
    else CountSince(log.past, k, since) + (if Counts(k, log.last) && log.last.at >= since then 1 else 0)
  }

  /** The latest call is not in the future. */
  predicate UpTo(log: Log, now: int) {
    log.Then? ==> log.last.at <= now
  }

  predicate Ordered(log: Log) {
    log.Then? ==> Ordered(log.past) && UpTo(log.past, log.last.at)
  }

  function Recent(g: Gate, k: Kind, now: int): nat { CountSince(g.log, k, now - MINUTE) }

  /** History calls still allowed at `now`; None when no window is open. */
  function Room(g: Gate, now: int): Option<nat> {
    match g.window
    case None => None
    case Some(w) =>
      if now >= w.deadline then Some(0)
      else Some(Min(Min(Max(0, w.ceiling - Made(g.log)),
                        Max(0, w.perMinute - Recent(g, HistoryOnly, now))),
                    Max(0, g.vendorPerMinute - Recent(g, Every, now))))
  }

  predicate Refuses(g: Gate, now: int) {
    match g.window
    case None => false
    case Some(w) =>
      || now >= w.deadline
      || Made(g.log) >= w.ceiling
      || Recent(g, HistoryOnly, now) >= w.perMinute
      || Recent(g, Every, now) >= g.vendorPerMinute
  }

  /** One attempted send: refused without a trace, or appended to the log. */
  function Attempt(g: Gate, now: int): Gate {
    if Refuses(g, now) then g else g.(log := Then(g.log, Call(now, g.window.Some?)))
  }

  function Attempts(g: Gate, now: int, n: nat): Gate {
    if n == 0 then g else Attempt(Attempts(g, now, n - 1), now)
  }

  lemma AttemptUsesOneRoom(g: Gate, now: int)
    requires g.window.Some?
    ensures Refuses(g, now) <==> Room(g, now) == Some(0)
    ensures !Refuses(g, now) ==> Room(Attempt(g, now), now) == Some(Room(g, now).value - 1)
  {
  }

  /** `history_room()` = k: exactly k more calls pass at this instant and the next is refused. */
  lemma {:induction false} RoomIsExact(g: Gate, now: int, n: nat)
    requires g.window.Some?
    ensures var k, after := Room(g, now).value, Attempts(g, now, n);
      && after.window == g.window
      && Made(after.log) == Made(g.log) + Min(n, k)
      && Room(after, now) == Some(Max(0, k - n))
      && (Refuses(after, now) <==> n >= k)
  {
    AttemptUsesOneRoom(g, now);
    if n > 0 {
      RoomIsExact(g, now, n - 1);
      AttemptUsesOneRoom(Attempts(g, now, n - 1), now);
      AttemptUsesOneRoom(Attempts(g, now, n), now);
    }
  }

  /**
    A send goes out exactly when, counting it, all four limits of the open
    window still hold: deadline, ceiling, the minute's history calls and the
    vendor's minute. Without a window it always goes out. Either way nothing but
    the log can change.
   */
  lemma SentIffLimitsHoldWithIt(g: Gate, now: int)
    ensures var log := Then(g.log, Call(now, g.window.Some?));
      && (Attempt(g, now) == g.(log := log) || Attempt(g, now) == g)
      && (Attempt(g, now).log == log <==>
            g.window.None?
            || (now < g.window.value.deadline && Made(log) <= g.window.value.ceiling
                && CountSince(log, HistoryOnly, now - 60_000_000) <= g.window.value.perMinute
                && CountSince(log, Every, now - 60_000_000) <= g.vendorPerMinute))
  {
    assert Made(Then(g.log, Call(now, g.window.Some?))) != Made(g.log);
  }

  /** Live and history calls share the vendor's minute. */
  lemma {:induction false} LanesShareTheMinute(log: Log, since: int)
    ensures CountSince(log, Every, since) == CountSince(log, HistoryOnly, since) + CountSince(log, LiveOnly, since)
    ensures CountSince(log, HistoryOnly, since) <= MadeByHistory(log) <= Made(log)
  {
    if log.Then? { LanesShareTheMinute(log.past, since); }
  }

  // ------------------------------------------------------------- whole runs

  datatype Event =
    | Open(window: HistoryWindow)
    | Close
    | Send(now: int)

  function Step(g: Gate, e: Event): Gate {
    match e
    case Open(w) => g.(window := Some(w))
    case Close => g.(window := None)
    case Send(now) => Attempt(g, now)
  }

  function Run(vendorPerMinute: int, events: seq<Event>): Gate {
    if events == [] then Gate(Start, None, vendorPerMinute)
    else Step(Run(vendorPerMinute, events[..|events| - 1]), events[|events| - 1])
  }

  /** The monotonic clock never runs backwards across the sends of a run. */
  ghost predicate ClockOk(events: seq<Event>) {
    forall i, j :: 0 <= i < j < |events| && events[i].Send? && events[j].Send? ==> events[i].now <= events[j].now
  }

  ghost predicate WindowsAtMost(events: seq<Event>, cap: int) {
    forall i :: 0 <= i < |events| && events[i].Open? ==> events[i].window.perMinute <= cap
  }

  /** History calls that fall in [from, from + one minute], both ends included. */
  function InMinute(log: Log, from: int): nat {
    if log.Start? then 0
    else InMinute(log.past, from) + (if log.last.history && from <= log.last.at <= from + MINUTE then 1 else 0)
  }

  /** Every history call was admitted while fewer than `cap` history calls were within a minute before it. */
  ghost predicate Paced(log: Log, cap: int) {
    log.Then? ==>
      && Paced(log.past, cap)
      && (log.last.history ==> CountSince(log.past, HistoryOnly, log.last.at - MINUTE) < cap)
  }

  /** What every reachable gate satisfies when no window allows more than `cap` a minute. */
  ghost predicate Disciplined(g: Gate, cap: int) {
    && Ordered(g.log) && Paced(g.log, cap)
    && (g.window.Some? ==> g.window.value.perMinute <= cap)
  }

  lemma {:induction false} LogUpTo(vendorPerMinute: int, events: seq<Event>, now: int)
    requires forall i :: 0 <= i < |events| && events[i].Send? ==> events[i].now <= now
    ensures UpTo(Run(vendorPerMinute, events).log, now)
  {
    if events != [] {
      LogUpTo(vendorPerMinute, events[..|events| - 1], now);
    }
  }

  lemma {:induction false} RunIsDisciplined(vendorPerMinute: int, events: seq<Event>, cap: int)
    requires ClockOk(events) && WindowsAtMost(events, cap)
    ensures Disciplined(Run(vendorPerMinute, events), cap)
  {
    if events != [] {
      var front, e := events[..|events| - 1], events[|events| - 1];
      RunIsDisciplined(vendorPerMinute, front, cap);
      if e.Send? {
        LogUpTo(vendorPerMinute, front, e.now);
      }
    }
  }

  /** In an ordered, paced log no minute holds more than `cap` history calls. */
  lemma {:induction false} PacedMinute(log: Log, cap: nat, from: int)
    requires Ordered(log) && Paced(log, cap)
    ensures InMinute(log, from) <= cap
  {
    if log.Then? {
      PacedMinute(log.past, cap, from);
      if log.last.history && from <= log.last.at <= from + MINUTE {
        MinuteWithinCount(log.past, from, log.last.at - MINUTE);
      }
    }
  }

  lemma {:induction false} MinuteWithinCount(log: Log, from: int, since: int)
    requires since <= from
    ensures InMinute(log, from) <= CountSince(log, HistoryOnly, since)
  {
    if log.Then? {
      MinuteWithinCount(log.past, from, since);
    }
  }

  /**
    Over any run whose windows never allow more than `cap` history calls a
    minute, every 60-second interval holds at most `cap` of them, retries and
    reopened windows included.
   */
  lemma AnyMinuteIsBounded(vendorPerMinute: int, events: seq<Event>, cap: nat, from: int)
    requires ClockOk(events) && WindowsAtMost(events, cap)
    ensures InMinute(Run(vendorPerMinute, events).log, from) <= cap
  {
    RunIsDisciplined(vendorPerMinute, events, cap);
    PacedMinute(Run(vendorPerMinute, events).log, cap, from);
  }

  // ------------------------------------------------------------- the client

  /**
    `marks` are the times of the latest calls of kind `k`; the calls it has
    forgotten are all older than `horizon`.
   */
  ghost predicate Deque(marks: seq<int>, log: Log, k: Kind, horizon: int) {
    if log.Start? then marks == []
    else if !Counts(k, log.last) then Deque(marks, log.past, k, horizon)
    else if marks == [] then log.last.at < horizon && Deque([], log.past, k, horizon)
    else marks[|marks| - 1] == log.last.at && Deque(marks[..|marks| - 1], log.past, k, horizon)
  }

  ghost predicate Rising(marks: seq<int>) {
    forall i, j :: 0 <= i < j < |marks| ==> marks[i] <= marks[j]
  }

  lemma {:induction false} DequeRises(marks: seq<int>, log: Log, k: Kind, horizon: int, now: int)
    requires Ordered(log) && UpTo(log, now) && Deque(marks, log, k, horizon)
    ensures Rising(marks)
    ensures forall i :: 0 <= i < |marks| ==> marks[i] <= now
  {
    if log.Then? {
      if !Counts(k, log.last) {
        DequeRises(marks, log.past, k, horizon, log.last.at);
      } else if marks != [] {
        DequeRises(marks[..|marks| - 1], log.past, k, horizon, log.last.at);
      }
    }
  }

  /** What is left after pruning counts exactly what the whole log would. */
  lemma {:induction false} KeptCountsAll(kept: seq<int>, marks: seq<int>, log: Log, k: Kind, horizon: int, cutoff: int)
    requires Deque(marks, log, k, horizon) && horizon <= cutoff
    requires |kept| <= |marks| && kept == marks[|marks| - |kept|..]
    requires forall i :: 0 <= i < |marks| - |kept| ==> marks[i] < cutoff
    requires forall i :: 0 <= i < |kept| ==> cutoff <= kept[i]
    ensures Deque(kept, log, k, cutoff)
    ensures |kept| == CountSince(log, k, cutoff)
  {
    if log.Then? {
      if !Counts(k, log.last) || marks == [] {
        KeptCountsAll(kept, marks, log.past, k, horizon, cutoff);
      } else {
        var front := marks[..|marks| - 1];
        if kept == [] {
          KeptCountsAll([], front, log.past, k, horizon, cutoff);
        } else {
          assert kept[|kept| - 1] == marks[|marks| - 1];
          KeptCountsAll(kept[..|kept| - 1], front, log.past, k, horizon, cutoff);
        }
      }
    }
  }

  /** Waiting alone keeps a deque a deque. */
  lemma {:induction false} DequeWaits(marks: seq<int>, log: Log, k: Kind, horizon: int, later: int)
    requires Deque(marks, log, k, horizon) && horizon <= later
    ensures Deque(marks, log, k, later)
  {
    if log.Then? {
      if !Counts(k, log.last) || marks == [] {
        DequeWaits(marks, log.past, k, horizon, later);
      } else {
        DequeWaits(marks[..|marks| - 1], log.past, k, horizon, later);
      }
    }
  }

  class FootballClient {
    var callsMade: int
    var callMarks: seq<int>
    var liveMarks: seq<int>
    var historyMarks: seq<int>
    var window: Option<HistoryWindow>
    var vendorPerMinute: int
    /** Every call ever made, and the latest time the client has read. */
    ghost var log: Log
    ghost var clock: int

    ghost function View(): Gate
      reads this
    {
      Gate(log, window, vendorPerMinute)
    }

    ghost predicate Valid()
      reads this
    {
      && callsMade == Made(log)
      && Ordered(log) && UpTo(log, clock)
      && Deque(callMarks, log, Every, clock - MINUTE)
      && Deque(liveMarks, log, LiveOnly, clock - MINUTE)
      && Deque(historyMarks, log, HistoryOnly, clock - MINUTE)
    }

    constructor (vendorPerMinute: int, ghost clock: int)
      ensures Valid() && View() == Gate(Start, None, vendorPerMinute) && this.clock == clock
    {
      callsMade := 0;
      callMarks, liveMarks, historyMarks := [], [], [];
      window := None;
      this.vendorPerMinute := vendorPerMinute;
      log, this.clock := Start, clock;
    }

    method OpenHistoryWindow(deadline: int, callCeiling: int, perMinute: int)
      requires Valid()
      modifies this`window
      ensures Valid()
      ensures View() == Step(old(View()), Open(HistoryWindow(deadline, callCeiling, perMinute)))
    {
      window := Some(HistoryWindow(deadline, callCeiling, perMinute));
    }

    method CloseHistoryWindow()
      requires Valid()
      modifies this`window
      ensures Valid() && View() == Step(old(View()), Close)
    {
      window := None;
    }

    /** Time passes. */
    ghost method Advance(now: int)
      requires Valid() && clock <= now
      modifies this`clock
      ensures Valid() && clock == now
    {
      DequeWaits(callMarks, log, Every, clock - MINUTE, now - MINUTE);
      DequeWaits(liveMarks, log, LiveOnly, clock - MINUTE, now - MINUTE);
      DequeWaits(historyMarks, log, HistoryOnly, clock - MINUTE, now - MINUTE);
      clock := now;
    }

    /** Drops marks older than a minute; what is left is the count. */
    static method Pruned(marks: seq<int>, now: int, ghost log: Log, ghost k: Kind, ghost clock: int)
      returns (kept: seq<int>)
      requires Ordered(log) && UpTo(log, clock) && Deque(marks, log, k, clock - MINUTE) && clock <= now
      ensures Deque(kept, log, k, now - MINUTE)
      ensures |kept| == CountSince(log, k, now - MINUTE)
    {
      DequeRises(marks, log, k, clock - MINUTE, clock);
      var cutoff := now - MINUTE;
      kept := marks;
      while kept != [] && kept[0] < cutoff
        invariant |kept| <= |marks| && kept == marks[|marks| - |kept|..]
        invariant forall i :: 0 <= i < |marks| - |kept| ==> marks[i] < cutoff
      {
        kept := kept[1..];
      }
      KeptCountsAll(kept, marks, log, k, clock - MINUTE, cutoff);
    }

    method RecentHistory(now: int) returns (n: nat)
      requires Valid() && clock <= now
      modifies this`historyMarks, this`clock
      ensures Valid() && clock == now
      ensures n == Recent(View(), HistoryOnly, now)
    {
      Advance(now);
      historyMarks := Pruned(historyMarks, now, log, HistoryOnly, clock);
      n := |historyMarks|;
    }

    method RecentLive(now: int) returns (n: nat)
      requires Valid() && clock <= now
      modifies this`liveMarks, this`clock
      ensures Valid() && clock == now
      ensures n == Recent(View(), LiveOnly, now)
    {
      Advance(now);
      liveMarks := Pruned(liveMarks, now, log, LiveOnly, clock);
      n := |liveMarks|;
    }

    method CallsInRecentMinute(now: int) returns (n: nat)
      requires Valid() && clock <= now
      modifies this`callMarks, this`clock
      ensures Valid() && clock == now
      ensures n == Recent(View(), Every, now)
    {
      Advance(now);
      callMarks := Pruned(callMarks, now, log, Every, clock);
      n := |callMarks|;
    }

    method HistoryRoom(now: int) returns (room: Option<nat>)
      requires Valid() && clock <= now
      modifies this`historyMarks, this`callMarks, this`clock
      ensures Valid() && clock == now
      ensures room == Room(View(), now)
    {
      Advance(now);
      if window.None? { return None; }
      if now >= window.value.deadline { return Some(0); }
      var byCeiling := Max(0, window.value.ceiling - callsMade);
      var recent := RecentHistory(now);
      var byMinute := Max(0, window.value.perMinute - recent);
      recent := CallsInRecentMinute(now);
      var byVendor := Max(0, vendorPerMinute - recent);
      room := Some(Min(Min(byCeiling, byMinute), byVendor));
    }

    /** Whether the minute (not the ceiling or the deadline) stops history. */
    method HistoryMinuteFull(now: int, quietPerMinute: int) returns (full: bool)
      requires Valid() && clock <= now
      modifies this`historyMarks, this`callMarks, this`clock
      ensures Valid() && clock == now
      ensures var cap := if window.Some? then window.value.perMinute else quietPerMinute;
        full <==> Recent(View(), HistoryOnly, now) >= cap || Recent(View(), Every, now) >= vendorPerMinute
    {
      var cap := if window.Some? then window.value.perMinute else quietPerMinute;
      var recent := RecentHistory(now);
      if recent >= cap { return true; }
      recent := CallsInRecentMinute(now);
      full := recent >= vendorPerMinute;
    }

    method LiveMinuteFull(now: int, livePerMinute: int) returns (full: bool)
      requires Valid() && clock <= now
      modifies this`liveMarks, this`callMarks, this`clock
      ensures Valid() && clock == now
      ensures full <==> Recent(View(), LiveOnly, now) >= livePerMinute || Recent(View(), Every, now) >= vendorPerMinute
    {
      var recent := RecentLive(now);
      if recent >= livePerMinute { return true; }
      recent := CallsInRecentMinute(now);
      full := recent >= vendorPerMinute;
    }

    method RefuseClosedWindow(now: int) returns (closed: bool)
      requires Valid() && clock <= now
      modifies this`historyMarks, this`callMarks, this`clock
      ensures Valid() && clock == now
      ensures closed <==> Refuses(View(), now)
    {
      Advance(now);
      if window.None? { return false; }
      if now >= window.value.deadline || callsMade >= window.value.ceiling { return true; }
      var recent := RecentHistory(now);
      if recent >= window.value.perMinute { return true; }
      recent := CallsInRecentMinute(now);
      closed := recent >= vendorPerMinute;
    }

    method NoteCall(now: int)
      requires Valid() && clock <= now
      modifies this
      ensures Valid() && clock == now
      ensures View() == old(View()).(log := Then(old(log), Call(now, old(window).Some?)))
    {
      Advance(now);
      callsMade := callsMade + 1;
      callMarks := callMarks + [now];
      if window.Some? {
        historyMarks := historyMarks + [now];
        assert historyMarks[..|historyMarks| - 1] == old(historyMarks);
      } else {
        liveMarks := liveMarks + [now];
        assert liveMarks[..|liveMarks| - 1] == old(liveMarks);
      }
      assert callMarks[..|callMarks| - 1] == old(callMarks);
      log := Then(log, Call(now, window.Some?));
    }

    /** One try of `_send_once`, first attempt or retry: refused, or counted before the wire. */
    method SendOnce(now: int) returns (sent: bool)
      requires Valid() && clock <= now
      modifies this
      ensures Valid() && clock == now
      ensures sent <==> !Refuses(old(View()), now)
      ensures View() == Step(old(View()), Send(now))
    {
      var closed := RefuseClosedWindow(now);
      if closed { return false; }
      NoteCall(now);
      sent := true;
    }
  }
}
