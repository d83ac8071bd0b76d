/**
  The demand sweep of the request planner: kickoff windows, the segments
  between their end points, and the integrals taken over those segments.

  Instants are whole microseconds, so an integral over time is a plain sum
  over instants. That sum is the reference every loop below is proved against.
 */
module SweepLine {
  import opened Prelude

  /** Matches that share one kickoff instant. */
  datatype KickoffLoad = KickoffLoad(kickoff: int, count: int)

  datatype Window = Window(start: int, end: int, count: int)

  datatype Segment = Segment(start: int, end: int, concurrency: int)

  const MICROS_PER_SECOND := 1_000_000
  const DAY := 24 * 3600 * MICROS_PER_SECOND
  const MATCH_LIVE_SPAN := 2 * 3600 * MICROS_PER_SECOND

  function Seconds(micros: int): real { micros as real / 1_000_000.0 }

  // ---------------------------------------------------------------- reference

  /** Sum of `f` over the instants of [lo, hi). */
  ghost function SumOver(f: int -> int, lo: int, hi: int): int
    decreases hi - lo
  {
    if hi <= lo then 0 else SumOver(f, lo, hi - 1) + f(hi - 1)
  }

  /** Matches in play at instant `t` for a board of `liveMatches` and a forecast. */
  function InPlayAt(now: int, liveMatches: int, forecast: seq<KickoffLoad>, t: int): int {
    if forecast == [] then
      if liveMatches > 0 && now <= t < now + MATCH_LIVE_SPAN then liveMatches else 0
    else
      var item := forecast[|forecast| - 1];
      InPlayAt(now, liveMatches, forecast[..|forecast| - 1], t)
      + if item.count > 0 && item.kickoff <= t < item.kickoff + MATCH_LIVE_SPAN then item.count else 0
  }

  /** What is on the board now stays in play for two hours, and so does what kicks off. */
  lemma InPlayForTwoHours(now: int, liveMatches: int, item: KickoffLoad, t: int)
    ensures var board := if now <= t < now + 7_200_000_000 then Max(0, liveMatches) else 0;
      var kickoff := if item.kickoff <= t < item.kickoff + 7_200_000_000 then Max(0, item.count) else 0;
      InPlayAt(now, liveMatches, [item], t) == board + kickoff
  {
    assert [item][..0] == [];
  }

  function Share(w: Window, t: int): int {
    if w.start <= t < w.end then w.count else 0
  }

  /** Matches in play at instant `t` according to a list of windows. */
  function ConcurrencyAt(windows: seq<Window>, t: int): int {
    if windows == [] then 0
    else ConcurrencyAt(windows[..|windows| - 1], t) + Share(windows[|windows| - 1], t)
  }

  ghost function Load(windows: seq<Window>): int -> int {
    t => ConcurrencyAt(windows, t)
  }

  ghost function Busy(load: int -> int): int -> int {
    t => if load(t) > 0 then 1 else 0
  }

  lemma {:induction false} SumSame(f: int -> int, g: int -> int, lo: int, hi: int)
    requires forall t :: lo <= t < hi ==> f(t) == g(t)
    ensures SumOver(f, lo, hi) == SumOver(g, lo, hi)
    decreases hi - lo
  {
    if lo < hi { SumSame(f, g, lo, hi - 1); }
  }

  lemma {:induction false} SumPlus(f: int -> int, g: int -> int, h: int -> int, lo: int, hi: int)
    requires forall t :: lo <= t < hi ==> h(t) == f(t) + g(t)
    ensures SumOver(h, lo, hi) == SumOver(f, lo, hi) + SumOver(g, lo, hi)
    decreases hi - lo
  {
    if lo < hi { SumPlus(f, g, h, lo, hi - 1); }
  }

  lemma {:induction false} SumSplit(f: int -> int, lo: int, mid: int, hi: int)
    requires lo <= mid <= hi
    ensures SumOver(f, lo, hi) == SumOver(f, lo, mid) + SumOver(f, mid, hi)
    decreases hi - mid
  {
    if mid < hi { SumSplit(f, lo, mid, hi - 1); }
  }

  lemma {:induction false} SumConstant(f: int -> int, c: int, lo: int, hi: int)
    requires lo <= hi
    requires forall t :: lo <= t < hi ==> f(t) == c
    ensures SumOver(f, lo, hi) == c * (hi - lo)
    decreases hi - lo
  {
    if lo < hi { SumConstant(f, c, lo, hi - 1); }
  }

  // ------------------------------------------------------------------ windows

  ghost predicate Inside(windows: seq<Window>, now: int, midnight: int) {
    forall w :: w in windows ==> now <= w.start < w.end <= midnight && w.count > 0
  }

  /** Clipping a window to the day keeps every instant of the day it covered. */
  method Windows(now: int, midnight: int, liveMatches: int, forecast: seq<KickoffLoad>)
    returns (windows: seq<Window>)
    ensures Inside(windows, now, midnight)
    ensures forall t :: now <= t < midnight ==>
      ConcurrencyAt(windows, t) == InPlayAt(now, liveMatches, forecast, t)
  {
    windows := [];
    if liveMatches > 0 {
      var end := Min(midnight, now + MATCH_LIVE_SPAN);
      if end > now {
        windows := windows + [Window(now, end, liveMatches)];
      }
    }
    var i := 0;
    while i < |forecast|
      invariant 0 <= i <= |forecast|
      invariant Inside(windows, now, midnight)
      invariant forall t :: now <= t < midnight ==>
        ConcurrencyAt(windows, t) == InPlayAt(now, liveMatches, forecast[..i], t)
    {
      var item := forecast[i];
      assert forecast[..i + 1][..i] == forecast[..i];
      var count := Max(0, item.count);
      var start := Max(item.kickoff, now);
      var end := Min(item.kickoff + MATCH_LIVE_SPAN, midnight);
      if count > 0 && end > start {
        ghost var before := windows;
        windows := windows + [Window(start, end, count)];
        assert windows[..|windows| - 1] == before;
      }
      i := i + 1;
    }
    assert forecast[..|forecast|] == forecast;
  }

  // ----------------------------------------------------------------- segments

  ghost predicate Increasing(points: seq<int>) {
    forall i, j :: 0 <= i < j < |points| ==> points[i] < points[j]
  }

  /** The midpoint of a gap, rounded half to even as `timedelta` division does. */
  function HalfEven(d: nat): nat {
    if d % 2 == 0 then d / 2
    else if (d / 2) % 2 == 0 then d / 2
    else d / 2 + 1
  }

  /** Adding a point to a set kept in increasing order. */
  method Insert(points: seq<int>, p: int) returns (r: seq<int>)
    requires Increasing(points)
    ensures Increasing(r)
    ensures forall q :: q in r <==> q in points || q == p
  {
    var i := 0;
    while i < |points| && points[i] < p
      invariant 0 <= i <= |points|
      invariant forall j :: 0 <= j < i ==> points[j] < p
    {
      i := i + 1;
    }
    if i < |points| && points[i] == p {
      return points;
    }
    r := points[..i] + [p] + points[i..];
    assert points == points[..i] + points[i..];
  }

  /** An ordered set of instants of the day that holds both of its borders. */
  ghost predicate DayPoints(points: seq<int>, now: int, midnight: int) {
    && Increasing(points)
    && now in points && midnight in points
    && forall p :: p in points ==> now <= p <= midnight
  }

  /** Every border of the window strictly inside the day is a point. */
  ghost predicate Covered(w: Window, points: seq<int>, now: int, midnight: int) {
    && (now < w.start < midnight ==> w.start in points)
    && (now < w.end < midnight ==> w.end in points)
  }

  method AddBorders(points: seq<int>, w: Window, now: int, midnight: int) returns (r: seq<int>)
    requires DayPoints(points, now, midnight)
    ensures DayPoints(r, now, midnight)
    ensures Covered(w, r, now, midnight)
    ensures forall v :: Covered(v, points, now, midnight) ==> Covered(v, r, now, midnight)
  {
    r := points;
    if now < w.start < midnight {
      r := Insert(r, w.start);
    }
    if now < w.end < midnight {
      r := Insert(r, w.end);
    }
  }

  /** The distinct end points of the day, in order: its borders and every window border inside it. */
  method Points(now: int, midnight: int, windows: seq<Window>) returns (points: seq<int>)
    requires now < midnight
    ensures Increasing(points) && |points| >= 2
    ensures points[0] == now && points[|points| - 1] == midnight
    ensures Flat(points, windows)
  {
    points := Insert([now], midnight);
    for i := 0 to |windows|
      invariant DayPoints(points, now, midnight)
      invariant forall j :: 0 <= j < i ==> Covered(windows[j], points, now, midnight)
    {
      points := AddBorders(points, windows[i], now, midnight);
    }
    BordersGiveFlat(points, windows, now, midnight);
  }

  lemma BordersGiveFlat(points: seq<int>, windows: seq<Window>, now: int, midnight: int)
    requires now < midnight && DayPoints(points, now, midnight)
    requires forall w :: w in windows ==> Covered(w, points, now, midnight)
    ensures |points| >= 2 && points[0] == now && points[|points| - 1] == midnight
    ensures Flat(points, windows)
  {
    assert points[0] in points && points[|points| - 1] in points;
    forall w | w in windows
      ensures NoneInside(points, w.start) && NoneInside(points, w.end)
    {
      MemberNotInside(points, w.start);
      MemberNotInside(points, w.end);
    }
  }

  /** No gap between neighbouring points contains `p`. */
  ghost predicate NoneInside(points: seq<int>, p: int) {
    forall i, j :: 0 <= i < j < |points| && j == i + 1 ==> !(points[i] < p < points[j])
  }

  /** No window begins or ends inside a gap between neighbouring points. */
  ghost predicate Flat(points: seq<int>, windows: seq<Window>) {
    forall w :: w in windows ==> NoneInside(points, w.start) && NoneInside(points, w.end)
  }

  lemma MemberNotInside(points: seq<int>, p: int)
    requires Increasing(points) && |points| >= 2
    requires points[0] < p < points[|points| - 1] ==> p in points
    ensures NoneInside(points, p)
  {
    if points[0] < p < points[|points| - 1] {
      var k :| 0 <= k < |points| && points[k] == p;
    }
  }

  /** The segments cover [now, midnight) once, left to right, without gaps. */
  ghost predicate Tiles(segments: seq<Segment>, now: int, midnight: int) {
    && |segments| > 0
    && segments[0].start == now
    && segments[|segments| - 1].end == midnight
    && (forall i :: 0 <= i < |segments| ==> segments[i].start < segments[i].end)
    && (forall i, j :: 0 <= i < j < |segments| && j == i + 1 ==> segments[i].end == segments[j].start)
  }

  /** A segment's sampled concurrency is the load at every instant it covers. */
  ghost predicate TrueThroughout(segments: seq<Segment>, load: int -> int) {
    forall k, t :: 0 <= k < |segments| && segments[k].start <= t < segments[k].end ==>
      load(t) == segments[k].concurrency
  }

  lemma {:induction false} FlatInGap(points: seq<int>, windows: seq<Window>, i: nat, t: int, u: int)
    requires i + 1 < |points| && Flat(points, windows)
    requires points[i] <= t < points[i + 1] && points[i] <= u < points[i + 1]
    ensures ConcurrencyAt(windows, t) == ConcurrencyAt(windows, u)
  {
    if windows != [] {
      FlatInGap(points, windows[..|windows| - 1], i, t, u);
      var w := windows[|windows| - 1];
      assert NoneInside(points, w.start) && NoneInside(points, w.end);
    }
  }

  method Concurrency(windows: seq<Window>, t: int) returns (total: int)
    ensures total == ConcurrencyAt(windows, t)
  {
    total := 0;
    for i := 0 to |windows|
      invariant total == ConcurrencyAt(windows[..i], t)
    {
      assert windows[..i + 1][..i] == windows[..i];
      if windows[i].start <= t < windows[i].end {
        total := total + windows[i].count;
      }
    }
    assert windows[..|windows|] == windows;
  }

  ghost predicate ConstantLoad(windows: seq<Window>, s: Segment) {
    forall t :: s.start <= t < s.end ==> ConcurrencyAt(windows, t) == s.concurrency
  }

  lemma MidpointSpeaksForGap(points: seq<int>, windows: seq<Window>, i: nat)
    requires i + 1 < |points| && Flat(points, windows) && points[i] < points[i + 1]
    ensures var mid := points[i] + HalfEven(points[i + 1] - points[i]);
      ConstantLoad(windows, Segment(points[i], points[i + 1], ConcurrencyAt(windows, mid)))
  {
    var mid := points[i] + HalfEven(points[i + 1] - points[i]);
    forall t | points[i] <= t < points[i + 1]
      ensures ConcurrencyAt(windows, t) == ConcurrencyAt(windows, mid)
    {
      FlatInGap(points, windows, i, t, mid);
    }
  }

  /** The segments run from each point to the next one, at the true load. */
  ghost predicate Follows(segments: seq<Segment>, points: seq<int>, windows: seq<Window>) {
    && |segments| < |points|
    && forall k {:trigger segments[k]} :: 0 <= k < |segments| ==>
      && segments[k].start == points[k]
      && segments[k].end == points[k + 1]
      && ConstantLoad(windows, segments[k])
  }

  lemma FollowingTiles(segments: seq<Segment>, points: seq<int>, windows: seq<Window>)
    requires Follows(segments, points, windows) && |segments| == |points| - 1 > 0
    requires Increasing(points)
    ensures Tiles(segments, points[0], points[|points| - 1])
    ensures TrueThroughout(segments, Load(windows))
  {
    forall k, t | 0 <= k < |segments| && segments[k].start <= t < segments[k].end
      ensures Load(windows)(t) == segments[k].concurrency
    {
      assert ConstantLoad(windows, segments[k]);
    }
  }

  method Segments(now: int, midnight: int, windows: seq<Window>) returns (segments: seq<Segment>)
    requires now < midnight
    ensures Tiles(segments, now, midnight)
    ensures TrueThroughout(segments, Load(windows))
  {
    var points := Points(now, midnight, windows);
    segments := [];
    for i := 0 to |points| - 1
      invariant |segments| == i
      invariant Follows(segments, points, windows)
    {
      var left, right := points[i], points[i + 1];
      var mid := left + HalfEven(right - left);
      var concurrency := Concurrency(windows, mid);
      MidpointSpeaksForGap(points, windows, i);
      segments := segments + [Segment(left, right, concurrency)];
    }
    FollowingTiles(segments, points, windows);
  }

  // ---------------------------------------------------------------- integrals

  function Integral(segments: seq<Segment>): int {
    if segments == [] then 0
    else
      var s := segments[|segments| - 1];
      Integral(segments[..|segments| - 1]) + s.concurrency * (s.end - s.start)
  }

  /** Concurrency times duration over the segments is the load summed over every instant. */
  lemma {:induction false} SegmentsIntegrateLoad(segments: seq<Segment>, load: int -> int, now: int, midnight: int)
    requires Tiles(segments, now, midnight) && TrueThroughout(segments, load)
    ensures now < midnight
    ensures Integral(segments) == SumOver(load, now, midnight)
  {
    var n := |segments| - 1;
    var s := segments[n];
    SumConstant(load, s.concurrency, s.start, s.end);
    if n > 0 {
      var front := segments[..n];
      assert front[n - 1] == segments[n - 1];
      assert Tiles(front, now, s.start);
      SegmentsIntegrateLoad(front, load, now, s.start);
      SumSplit(load, now, s.start, s.end);
    } else {
      assert segments[..0] == [];
    }
  }

  /** What `_match_seconds` adds up: every window clipped to the day, on its own. */
  function Clipped(windows: seq<Window>, now: int, midnight: int): int {
    if windows == [] then 0
    else
      var w := windows[|windows| - 1];
      Clipped(windows[..|windows| - 1], now, midnight)
      + w.count * Max(0, Min(w.end, midnight) - Max(w.start, now))
  }

  method MatchMicros(windows: seq<Window>, now: int, midnight: int) returns (total: int)
    ensures total == Clipped(windows, now, midnight)
  {
    total := 0;
    for i := 0 to |windows|
      invariant total == Clipped(windows[..i], now, midnight)
    {
      assert windows[..i + 1][..i] == windows[..i];
      var start := Max(windows[i].start, now);
      var end := Min(windows[i].end, midnight);
      if end > start {
        total := total + windows[i].count * (end - start);
      }
    }
    assert windows[..|windows|] == windows;
  }

  lemma OneWindow(w: Window, now: int, midnight: int)
    requires now <= midnight
    ensures SumOver(t => Share(w, t), now, midnight)
         == w.count * Max(0, Min(w.end, midnight) - Max(w.start, now))
  {
    var f := t => Share(w, t);
    var start, end := Max(w.start, now), Min(w.end, midnight);
    if start < end {
      SumSplit(f, now, start, midnight);
      SumSplit(f, start, end, midnight);
      SumConstant(f, 0, now, start);
      SumConstant(f, w.count, start, end);
      SumConstant(f, 0, end, midnight);
    } else {
      SumConstant(f, 0, now, midnight);
    }
  }

  lemma {:induction false} ClippedIntegratesLoad(windows: seq<Window>, now: int, midnight: int)
    requires now <= midnight
    ensures Clipped(windows, now, midnight) == SumOver(Load(windows), now, midnight)
  {
    if windows == [] {
      SumConstant(Load([]), 0, now, midnight);
    } else {
      var front, w := windows[..|windows| - 1], windows[|windows| - 1];
      ClippedIntegratesLoad(front, now, midnight);
      OneWindow(w, now, midnight);
      SumPlus(Load(front), t => Share(w, t), Load(windows), now, midnight);
    }
  }

  /** The sweep over segments and the direct clipped sum agree for any list of windows. */
  lemma SweepEqualsDirect(segments: seq<Segment>, windows: seq<Window>, now: int, midnight: int)
    requires Tiles(segments, now, midnight) && TrueThroughout(segments, Load(windows))
    ensures Integral(segments) == Clipped(windows, now, midnight)
  {
    SegmentsIntegrateLoad(segments, Load(windows), now, midnight);
    ClippedIntegratesLoad(windows, now, midnight);
  }

  method BusyMicros(segments: seq<Segment>, ghost load: int -> int, ghost now: int, ghost midnight: int)
    returns (busy: int)
    requires Tiles(segments, now, midnight) && TrueThroughout(segments, load)
    ensures busy == SumOver(Busy(load), now, midnight)
  {
    busy := 0;
    for i := 0 to |segments|
      invariant i == 0 ==> busy == 0
      invariant i > 0 ==> busy == SumOver(Busy(load), now, segments[i - 1].end) && now < segments[i - 1].end
    {
      var s := segments[i];
      SumConstant(Busy(load), if s.concurrency > 0 then 1 else 0, s.start, s.end);
      SumSplit(Busy(load), now, s.start, s.end);
      if s.concurrency > 0 {
        busy := busy + (s.end - s.start);
      }
    }
  }

  /** How many times a cadence of `every` seconds fits in a span; 0 when the cadence is off. */
  function Rounds(micros: int, every: real): real {
    if every > 0.0 then Seconds(micros) / every else 0.0
  }

  lemma RoundsPlus(a: int, b: int, every: real)
    ensures Rounds(a + b, every) == Rounds(a, every) + Rounds(b, every)
  {
  }

  /** One more segment of a tiling adds its length to the busy time, or to the idle time. */
  lemma BusyGrows(segments: seq<Segment>, load: int -> int, now: int, midnight: int, i: nat)
    requires Tiles(segments, now, midnight) && TrueThroughout(segments, load) && i < |segments|
    requires i > 0 ==> now < segments[i - 1].end
    ensures now < segments[i].end && (i > 0 ==> segments[i - 1].end == segments[i].start)
    ensures SumOver(Busy(load), now, segments[i].end)
      == (if i == 0 then 0 else SumOver(Busy(load), now, segments[i - 1].end))
         + if segments[i].concurrency > 0 then segments[i].end - segments[i].start else 0
  {
    var s := segments[i];
    SumConstant(Busy(load), if s.concurrency > 0 then 1 else 0, s.start, s.end);
    SumSplit(Busy(load), now, s.start, s.end);
  }

  method IntegratedPolls(segments: seq<Segment>, busySeconds: real, idleSeconds: real,
                         ghost load: int -> int, ghost now: int, ghost midnight: int)
    returns (total: real)
    requires Tiles(segments, now, midnight) && TrueThroughout(segments, load)
    ensures var busy := SumOver(Busy(load), now, midnight);
      total == Rounds(busy, busySeconds) + Rounds(midnight - now - busy, idleSeconds)
  {
    total := 0.0;
    ghost var busy, idle := 0, 0;
    for i := 0 to |segments|
      invariant i == 0 ==> busy == 0 && idle == 0
      invariant i > 0 ==>
        && now < segments[i - 1].end
        && busy == SumOver(Busy(load), now, segments[i - 1].end)
        && busy + idle == segments[i - 1].end - now
      invariant total == Rounds(busy, busySeconds) + Rounds(idle, idleSeconds)
    {
      var s := segments[i];
      BusyGrows(segments, load, now, midnight, i);
      var length := s.end - s.start;
      if s.concurrency > 0 {
        RoundsPlus(busy, length, busySeconds);
        busy, total := busy + length, total + Rounds(length, busySeconds);
      } else {
        RoundsPlus(idle, length, idleSeconds);
        idle, total := idle + length, total + Rounds(length, idleSeconds);
      }
    }
  }
}
