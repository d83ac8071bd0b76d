/**
  The debounce before a model call. A set of candidates has to be seen
  unchanged for a full wait before it is sent, and is sent once. Times are
  microseconds.
 */
module Debounce {
  import opened Prelude

  /** Fixture, period, line and score of each candidate, in order. */
  type Signature = seq<(int, int, int, int, int)>

  datatype Window = Window(signature: Signature, since: Option<int>, fired: bool)

  function Fresh(): Window { Window([], None, true) }

  /** After a restart: the last set sent, open again if that call ended under the odds floor. */
  function Restored(signature: Signature, retry: bool): Window { Window(signature, None, !retry) }

  /** A look at the current set. The answer says whether to call the model now. */
  function Looked(w: Window, signature: Signature, now: int, wait: int): (Window, bool) {
    if signature != w.signature then (Window(signature, Some(now), false), false)
    else if signature == [] || w.fired then (w, false)
    else if w.since.None? then (w.(since := Some(now)), false)
    else (w, now - w.since.value >= wait)
  }

  function Sleep(w: Window, now: int, wait: int, poll: int): int {
    if w.fired || w.signature == [] || w.since.None? then poll
    else
      var remaining := w.since.value + wait - now;
      if remaining <= 0 then poll else Min(poll, remaining)
  }

  // ------------------------------------------------------------------ whole runs

  datatype Event = Look(signature: Signature, now: int) | Fired | Held(now: int)

  function After(w: Window, e: Event, wait: int): Window {
    match e
    case Look(signature, now) => Looked(w, signature, now, wait).0
    case Fired => w.(fired := true)
    case Held(now) => w.(since := Some(now), fired := false)
  }

  function Run(start: Window, log: seq<Event>, wait: int): Window {
    if log == [] then start else After(Run(start, log[..|log| - 1], wait), log[|log| - 1], wait)
  }

  /** The event starts a new wait: a changed set, a hold, or the first look at a set restored open. */
  predicate Opens(w: Window, e: Event) {
    match e
    case Held(_) => true
    case Fired => false
    case Look(signature, _) =>
      signature != w.signature || (signature != [] && !w.fired && w.since.None?)
  }

  predicate OpensAt(start: Window, log: seq<Event>, j: nat, wait: int)
    requires j < |log|
  {
    Opens(Run(start, log[..j], wait), log[j])
  }

  function TimeOf(e: Event): int
    requires !e.Fired?
  {
    e.now
  }

  /** From event `j` on only this set was looked at, and it was neither sent nor held again. */
  ghost predicate SameSetSince(start: Window, log: seq<Event>, j: nat, signature: Signature, wait: int)
    requires j < |log|
  {
    && Run(start, log[..j + 1], wait).signature == signature
    && forall k :: j < k < |log| ==> log[k].Look? && log[k].signature == signature
  }

  /** The set has been waiting since time `t`, by event `j`. */
  ghost predicate WaitsSince(start: Window, log: seq<Event>, j: nat, t: int, wait: int) {
    && j < |log| && OpensAt(start, log, j, wait) && TimeOf(log[j]) == t
    && SameSetSince(start, log, j, Run(start, log, wait).signature, wait)
  }

  ghost predicate Waiting(w: Window) { !w.fired && w.since.Some? }

  /** Every wait in progress was started by one event of the run. */
  lemma {:induction false} WaitHasOpener(start: Window, log: seq<Event>, wait: int) returns (j: nat)
    requires start.since.None?
    ensures Waiting(Run(start, log, wait)) ==> WaitsSince(start, log, j, Run(start, log, wait).since.value, wait)
  {
    j := 0;
    if log != [] {
      var n := |log| - 1;
      var before := Run(start, log[..n], wait);
      var now := Run(start, log, wait);
      j := WaitHasOpener(start, log[..n], wait);
      if Opens(before, log[n]) {
        j := n;
        assert log[..n + 1] == log;
      } else if Waiting(now) {
        assert log[n].Look? && Waiting(before) && now == before;
        assert log[..n][..j] == log[..j] && log[..n][..j + 1] == log[..j + 1];
        assert forall k :: j < k < n ==> log[k] == log[..n][k];
      }
    }
  }

  /** The wait started by an opener goes on while the same set is looked at and nothing else happens. */
  lemma {:induction false} OpenerKeepsWaiting(start: Window, log: seq<Event>, j: nat, signature: Signature, wait: int)
    requires j < |log| && OpensAt(start, log, j, wait) && SameSetSince(start, log, j, signature, wait)
    ensures Run(start, log, wait) == Window(signature, Some(TimeOf(log[j])), false)
  {
    var n := |log| - 1;
    if j == n {
      assert log[..n + 1] == log;
    } else {
      assert log[..n][..j] == log[..j] && log[..n][..j + 1] == log[..j + 1];
      OpenerKeepsWaiting(start, log[..n], j, signature, wait);
    }
  }

  /** One non-empty set is all that was seen for a full wait, and it was not sent meanwhile. */
  ghost predicate UnchangedForAWait(start: Window, log: seq<Event>, signature: Signature, now: int, wait: int) {
    signature != []
    && exists j: nat ::
         (j < |log| && OpensAt(start, log, j, wait) && SameSetSince(start, log, j, signature, wait)
          && now - TimeOf(log[j]) >= wait)
  }

  /** The model is called exactly when the set it is asked about stood unchanged for a full wait. */
  lemma ReadyIffUnchangedForAWait(start: Window, log: seq<Event>, signature: Signature, now: int, wait: int)
    requires start.since.None?
    ensures Looked(Run(start, log, wait), signature, now, wait).1
      <==> UnchangedForAWait(start, log, signature, now, wait)
  {
    if Looked(Run(start, log, wait), signature, now, wait).1 {
      var j := WaitHasOpener(start, log, wait);
      assert OpensAt(start, log, j, wait) && SameSetSince(start, log, j, signature, wait);
    }
    if UnchangedForAWait(start, log, signature, now, wait) {
      var j: nat :| j < |log| && OpensAt(start, log, j, wait)
        && SameSetSince(start, log, j, signature, wait) && now - TimeOf(log[j]) >= wait;
      OpenerKeepsWaiting(start, log, j, signature, wait);
    }
  }

  /** The windows the program starts with, fresh or restored, both obey the rule. */
  lemma StartsObeyTheRule(last: Signature, retry: bool, log: seq<Event>, signature: Signature, now: int, wait: int)
    ensures Looked(Run(Fresh(), log, wait), signature, now, wait).1
      <==> UnchangedForAWait(Fresh(), log, signature, now, wait)
    ensures Looked(Run(Restored(last, retry), log, wait), signature, now, wait).1
      <==> UnchangedForAWait(Restored(last, retry), log, signature, now, wait)
  {
    ReadyIffUnchangedForAWait(Fresh(), log, signature, now, wait);
    ReadyIffUnchangedForAWait(Restored(last, retry), log, signature, now, wait);
  }

  /** A set restored as sent is not sent again by looking at it: it takes a change or a hold. */
  lemma {:induction false} RestoredSentWaitsForChange(last: Signature, log: seq<Event>, wait: int)
    requires forall k :: 0 <= k < |log| ==> log[k].Look? && log[k].signature == last
    ensures Run(Restored(last, false), log, wait) == Restored(last, false)
  {
    if log != [] { RestoredSentWaitsForChange(last, log[..|log| - 1], wait); }
  }

  /** Once a set was sent, a wait in progress has a start. */
  lemma {:induction false} SentLeavesNoOpenEnd(start: Window, log: seq<Event>, f: nat, wait: int)
    requires f < |log| && log[f].Fired?
    ensures Run(start, log, wait).fired || Run(start, log, wait).since.Some?
  {
    if f < |log| - 1 { SentLeavesNoOpenEnd(start, log[..|log| - 1], f, wait); }
  }

  /** After a set was sent the model is called again only a full wait after the set changed or was held. */
  lemma AfterSendingOnlyChangeOrHold(start: Window, log: seq<Event>, f: nat, signature: Signature, now: int, wait: int)
    returns (j: nat)
    requires start.since.None? && f < |log| && log[f].Fired?
    requires Looked(Run(start, log, wait), signature, now, wait).1
    ensures f < j < |log| && !log[j].Fired? && now - TimeOf(log[j]) >= wait
    ensures log[j].Held? || log[j].signature != Run(start, log[..j], wait).signature
    ensures SameSetSince(start, log, j, signature, wait)
  {
    j := WaitHasOpener(start, log, wait);
    assert log[..j][f].Fired?;
    SentLeavesNoOpenEnd(start, log[..j], f, wait);
  }

  /** Never longer than the poll, and never past the moment the waiting set is due. */
  lemma SleepWakesOnTime(w: Window, now: int, wait: int, poll: int)
    requires poll > 0
    ensures 0 < Sleep(w, now, wait, poll) <= poll
    ensures Waiting(w) && w.signature != [] && now - w.since.value < wait ==>
      (Looked(w, w.signature, now + Sleep(w, now, wait, poll), wait).1 <==> w.since.value + wait - now <= poll)
    // A sleep is only ever cut short to wake at the very moment the set is due.
    ensures Sleep(w, now, wait, poll) < poll ==>
      Waiting(w) && w.signature != [] && now + Sleep(w, now, wait, poll) == w.since.value + wait
  {
  }

  /** A set restored open is due a full wait after it is first seen again, a set restored as sent never by looking. */
  lemma RestoredOpenWaitsFromFirstLook(last: Signature, first: int, later: int, wait: int)
    requires last != []
    ensures Looked(Looked(Restored(last, true), last, first, wait).0, last, later, wait).1 <==> later - first >= wait
    ensures !Looked(Looked(Restored(last, false), last, first, wait).0, last, later, wait).1
    ensures !Looked(Restored(last, true), last, first, wait).1
  {
  }

  class CandidateWindow {
    var signature: Signature
    var since: Option<int>
    var fired: bool

    function State(): Window
      reads this
    {
      Window(signature, since, fired)
    }

    constructor (start: Window)
      ensures State() == start
    {
      signature, since, fired := start.signature, start.since, start.fired;
    }

    method Ready(seen: Signature, now: int, wait: int) returns (due: bool)
      modifies this
      ensures (State(), due) == Looked(old(State()), seen, now, wait)
    {
      if seen != signature {
        signature, since, fired := seen, Some(now), false;
        return false;
      }
      if seen == [] || fired { return false; }
      if since.None? {
        since := Some(now);
        return false;
      }
      due := now - since.value >= wait;
    }

    method MarkFired()
      modifies this`fired
      ensures forall wait :: State() == After(old(State()), Fired, wait)
      ensures forall later, wait :: !Looked(State(), signature, later, wait).1
    {
      fired := true;
    }

    method HoldForRetry(now: int)
      modifies this`since, this`fired
      ensures forall wait :: State() == After(old(State()), Held(now), wait)
      ensures forall later, wait :: signature != [] ==>
        (Looked(State(), signature, later, wait).1 <==> later - now >= wait)
    {
      since, fired := Some(now), false;
    }

    method NextSleep(now: int, wait: int, poll: int) returns (delay: int)
      ensures delay == Sleep(State(), now, wait, poll)
    {
      if fired || signature == [] || since.None? { return poll; }
      var remaining := since.value + wait - now;
      if remaining <= 0 { return poll; }
      delay := Min(poll, remaining);
    }
  }
}
