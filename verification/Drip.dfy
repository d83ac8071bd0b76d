/**
  The history drip: how many surplus calls each window may spend, and what is
  left of the surplus once the last window before UTC midnight has closed.
 */
module Drip {
  import opened Prelude

  /** Calls for one history window. A positive `catchUpCap` is only a ceiling per window. */
  function HistoryCallAllowance(surplus: int, secondsLeft: real, cycleSeconds: real, catchUpCap: int): int {
    if surplus <= 0 || secondsLeft <= 0.0 || cycleSeconds <= 0.0 then 0
    else
      var paced := Paced(surplus, secondsLeft, cycleSeconds);
      if catchUpCap > 0 then Min(paced, catchUpCap) else paced
  }

  function CyclesLeft(secondsLeft: real, cycleSeconds: real): real
    requires cycleSeconds > 0.0
  {
    MaxReal(1.0, secondsLeft / cycleSeconds)
  }

  function Paced(surplus: int, secondsLeft: real, cycleSeconds: real): int
    requires cycleSeconds > 0.0
  {
    Min(surplus, Ceil(surplus as real / CyclesLeft(secondsLeft, cycleSeconds)))
  }

  /** Windows that still open before midnight when one opens every `cycleSeconds`. */
  function Windows(secondsLeft: real, cycleSeconds: real): nat
    requires cycleSeconds > 0.0
  {
    if secondsLeft <= 0.0 then 0
    else
      QuotientPositive(secondsLeft, cycleSeconds);
      Ceil(secondsLeft / cycleSeconds)
  }

  lemma QuotientPositive(x: real, y: real)
    requires x > 0.0 && y > 0.0
    ensures x / y > 0.0
  {
  }

  lemma QuotientMinusOne(x: real, y: real)
    requires y > 0.0
    ensures (x - y) / y == x / y - 1.0
  {
    var q, r := x / y, (x - y) / y;
    assert q * y == x && r * y == x - y;
    CancelFactor(r, q - 1.0, y);
  }

  lemma CancelFactor(a: real, b: real, y: real)
    requires y > 0.0 && a * y == b * y
    ensures a == b
  {
  }

  lemma OneWindowLess(secondsLeft: real, cycleSeconds: real)
    requires secondsLeft > 0.0 && cycleSeconds > 0.0
    ensures Windows(secondsLeft, cycleSeconds) >= 1
    ensures Windows(secondsLeft - cycleSeconds, cycleSeconds) == Windows(secondsLeft, cycleSeconds) - 1
  {
    QuotientPositive(secondsLeft, cycleSeconds);
    QuotientMinusOne(secondsLeft, cycleSeconds);
    if secondsLeft <= cycleSeconds {
      assert secondsLeft / cycleSeconds <= 1.0;
    } else {
      QuotientPositive(secondsLeft - cycleSeconds, cycleSeconds);
    }
  }

  /** The allowances of the windows that follow, each one spent in full. */
  function Allowances(surplus: int, secondsLeft: real, cycleSeconds: real, cap: int): (r: seq<int>)
    requires cycleSeconds > 0.0
    decreases Windows(secondsLeft, cycleSeconds)
  {
    if secondsLeft <= 0.0 then []
    else
      OneWindowLess(secondsLeft, cycleSeconds);
      var a := HistoryCallAllowance(surplus, secondsLeft, cycleSeconds, cap);
      [a] + Allowances(surplus - a, secondsLeft - cycleSeconds, cycleSeconds, cap)
  }

  function Sum(xs: seq<int>): int {
    if xs == [] then 0 else xs[0] + Sum(xs[1..])
  }

  lemma DividedShrinks(surplus: int, x: real)
    requires surplus > 0 && x >= 1.0
    ensures 1 <= Ceil(surplus as real / x) <= surplus
    ensures surplus as real / x <= surplus as real
  {
    QuotientPositive(surplus as real, x);
    assert surplus as real / x <= surplus as real;
  }

  /** No allowance is negative or larger than the surplus it is cut from. */
  lemma AllowanceWithinSurplus(surplus: int, secondsLeft: real, cycleSeconds: real, cap: int)
    ensures 0 <= HistoryCallAllowance(surplus, secondsLeft, cycleSeconds, cap) <= Max(0, surplus)
    ensures cap > 0 ==> HistoryCallAllowance(surplus, secondsLeft, cycleSeconds, cap) <= cap
    ensures surplus > 0 && secondsLeft > 0.0 && cycleSeconds > 0.0 ==>
      HistoryCallAllowance(surplus, secondsLeft, cycleSeconds, cap) >= 1
  {
    if surplus > 0 && secondsLeft > 0.0 && cycleSeconds > 0.0 {
      DividedShrinks(surplus, CyclesLeft(secondsLeft, cycleSeconds));
    }
  }

  /** One of `x` shares of the surplus, rounded up, against a cap on each of `n` windows. */
  lemma ShareAgainstCap(surplus: int, x: real, n: int, cap: int)
    requires surplus > 0 && cap > 0 && 1.0 <= x <= n as real
    ensures var a := Min(Min(surplus, Ceil(surplus as real / x)), cap);
      && (surplus >= n * cap ==> a == cap)
      && (surplus <= n * cap ==> surplus - a <= (n - 1) * cap)
  {
    DividedShrinks(surplus, x);
    var s, c := surplus as real, cap as real;
    if surplus >= n * cap {
      assert s >= n as real * c;
      ScaleDown(s, x, n as real, c);
      CeilMonotone(c, s / x);
      assert n * cap >= cap;
    }
    if surplus <= n * cap && Ceil(s / x) < cap {
      if n == 1 { assert s / x == s; } else { LeftOver(s, x, n as real, c); }
    }
  }

  /** A window's share, measured against the number of whole windows left. */
  lemma PacedAgainstCap(surplus: int, secondsLeft: real, cycleSeconds: real, cap: int)
    requires surplus > 0 && secondsLeft > 0.0 && cycleSeconds > 0.0 && cap > 0
    ensures var n := Windows(secondsLeft, cycleSeconds);
      var a := HistoryCallAllowance(surplus, secondsLeft, cycleSeconds, cap);
      && (surplus >= n * cap ==> a == cap)
      && (surplus <= n * cap ==> surplus - a <= (n - 1) * cap)
  {
    OneWindowLess(secondsLeft, cycleSeconds);
    ShareAgainstCap(surplus, CyclesLeft(secondsLeft, cycleSeconds), Windows(secondsLeft, cycleSeconds), cap);
  }

  lemma ScaleDown(s: real, x: real, n: real, c: real)
    requires 0.0 < x <= n && c > 0.0 && s >= n * c
    ensures s / x >= c
  {
    assert n * c >= x * c;
    assert s >= x * c;
  }

  /** A share below the cap leaves at most what the remaining windows can take. */
  lemma LeftOver(s: real, x: real, n: real, c: real)
    requires 1.0 <= x <= n && s / x <= c && c > 0.0
    ensures s - s / x <= (n - 1.0) * c
  {
    var q := s / x;
    assert s == q * x;
    assert s - q == q * (x - 1.0);
    assert q * (x - 1.0) <= c * (x - 1.0);
    assert c * (x - 1.0) <= c * (n - 1.0);
  }

  /** The part of the surplus that `n` windows cannot take; an absent cap takes everything. */
  function Stranded(surplus: int, n: nat, cap: int): int {
    if cap == 0 then 0 else Max(0, surplus - n * cap)
  }

  lemma StrandedIsKept(surplus: int, secondsLeft: real, cycleSeconds: real, cap: int)
    requires surplus >= 0 && secondsLeft > 0.0 && cycleSeconds > 0.0 && cap >= 0
    ensures var n := Windows(secondsLeft, cycleSeconds);
      var left := surplus - HistoryCallAllowance(surplus, secondsLeft, cycleSeconds, cap);
      n >= 1 && left >= 0 && Stranded(left, n - 1, cap) == Stranded(surplus, n, cap)
  {
    OneWindowLess(secondsLeft, cycleSeconds);
    AllowanceWithinSurplus(surplus, secondsLeft, cycleSeconds, cap);
    if cap > 0 {
      var n := Windows(secondsLeft, cycleSeconds);
      assert (n - 1) * cap == n * cap - cap;
      assert 0 <= (n - 1) * cap;
      if surplus > 0 { PacedAgainstCap(surplus, secondsLeft, cycleSeconds, cap); }
    }
  }

  /**
    What midnight finds unspent: nothing while the lane cap allows, otherwise
    exactly the part that the remaining windows could not take at the cap.
    Without a cap nothing is ever stranded.
   */
  lemma {:induction false} DripLeavesOnlyTheCappedPart(surplus: int, secondsLeft: real, cycleSeconds: real, cap: int)
    requires surplus >= 0 && secondsLeft > 0.0 && cycleSeconds > 0.0 && cap >= 0
    ensures surplus - Sum(Allowances(surplus, secondsLeft, cycleSeconds, cap))
         == Stranded(surplus, Windows(secondsLeft, cycleSeconds), cap)
    decreases Windows(secondsLeft, cycleSeconds)
  {
    OneWindowLess(secondsLeft, cycleSeconds);
    StrandedIsKept(surplus, secondsLeft, cycleSeconds, cap);
    var a := HistoryCallAllowance(surplus, secondsLeft, cycleSeconds, cap);
    var rest := Allowances(surplus - a, secondsLeft - cycleSeconds, cycleSeconds, cap);
    assert Allowances(surplus, secondsLeft, cycleSeconds, cap) == [a] + rest;
    assert ([a] + rest)[1..] == rest;
    if secondsLeft > cycleSeconds {
      DripLeavesOnlyTheCappedPart(surplus - a, secondsLeft - cycleSeconds, cycleSeconds, cap);
    } else {
      LastWindowTakesAll(surplus, secondsLeft, cycleSeconds);
      assert rest == [];
    }
  }

  lemma LastWindowTakesAll(surplus: int, secondsLeft: real, cycleSeconds: real)
    requires surplus >= 0 && 0.0 < secondsLeft <= cycleSeconds
    ensures Paced(surplus, secondsLeft, cycleSeconds) == surplus
    ensures Windows(secondsLeft, cycleSeconds) == 1
  {
    QuotientPositive(secondsLeft, cycleSeconds);
    assert secondsLeft / cycleSeconds <= 1.0;
  }

  /** While each window spends its allowance, the next one is never larger. */
  lemma AllowancesNeverIncrease(surplus: int, secondsLeft: real, cycleSeconds: real, cap: int)
    requires surplus >= 0 && secondsLeft > cycleSeconds > 0.0 && cap >= 0
    ensures var a := HistoryCallAllowance(surplus, secondsLeft, cycleSeconds, cap);
      HistoryCallAllowance(surplus - a, secondsLeft - cycleSeconds, cycleSeconds, cap) <= a
  {
    AllowanceWithinSurplus(surplus, secondsLeft, cycleSeconds, cap);
    var a := HistoryCallAllowance(surplus, secondsLeft, cycleSeconds, cap);
    if surplus - a > 0 && (cap == 0 || a < cap) {
      QuotientMinusOne(secondsLeft, cycleSeconds);
      var x := CyclesLeft(secondsLeft, cycleSeconds);
      var y := CyclesLeft(secondsLeft - cycleSeconds, cycleSeconds);
      assert secondsLeft / cycleSeconds > 1.0;
      DividedShrinks(surplus, x);
      ShareShrinks(surplus as real, x, y, (surplus - a) as real);
      CeilMonotone((surplus - a) as real / y, surplus as real / x);
    }
  }

  ghost predicate NeverRises(all: seq<int>) {
    forall i, j :: 0 <= i < j < |all| ==> all[j] <= all[i]
  }

  lemma FirstOfRest(surplus: int, secondsLeft: real, cycleSeconds: real, cap: int)
    requires surplus >= 0 && secondsLeft > 0.0 && cycleSeconds > 0.0 && cap >= 0
    ensures var a := HistoryCallAllowance(surplus, secondsLeft, cycleSeconds, cap);
      var rest := Allowances(surplus - a, secondsLeft - cycleSeconds, cycleSeconds, cap);
      && Allowances(surplus, secondsLeft, cycleSeconds, cap) == [a] + rest
      && (rest != [] ==> rest[0] <= a)
  {
    if secondsLeft > cycleSeconds { AllowancesNeverIncrease(surplus, secondsLeft, cycleSeconds, cap); }
  }

  lemma OneInFront(a: int, rest: seq<int>)
    requires NeverRises(rest) && (rest != [] ==> rest[0] <= a)
    ensures NeverRises([a] + rest)
  {
  }

  /** Over a whole day of windows, each spent in full, no allowance is larger than an earlier one. */
  lemma {:induction false} AllowancesFallThroughTheDay(surplus: int, secondsLeft: real, cycleSeconds: real, cap: int)
    requires surplus >= 0 && cycleSeconds > 0.0 && cap >= 0
    ensures NeverRises(Allowances(surplus, secondsLeft, cycleSeconds, cap))
    decreases Windows(secondsLeft, cycleSeconds)
  {
    if secondsLeft > 0.0 {
      OneWindowLess(secondsLeft, cycleSeconds);
      AllowanceWithinSurplus(surplus, secondsLeft, cycleSeconds, cap);
      var a := HistoryCallAllowance(surplus, secondsLeft, cycleSeconds, cap);
      AllowancesFallThroughTheDay(surplus - a, secondsLeft - cycleSeconds, cycleSeconds, cap);
      FirstOfRest(surplus, secondsLeft, cycleSeconds, cap);
      OneInFront(a, Allowances(surplus - a, secondsLeft - cycleSeconds, cycleSeconds, cap));
    }
  }

  /** One window left, ten calls over, a ceiling of three: seven are stranded. */
  lemma CapStrandsCalls(secondsLeft: real)
    requires secondsLeft == 10.0
    ensures Sum(Allowances(10, secondsLeft, secondsLeft, 3)) == 3
    ensures Stranded(10, Windows(secondsLeft, secondsLeft), 3) == 7
  {
    LastWindowTakesAll(10, secondsLeft, secondsLeft);
    DripLeavesOnlyTheCappedPart(10, secondsLeft, secondsLeft, 3);
  }

  lemma ShareShrinks(s: real, x: real, y: real, rest: real)
    requires s > 0.0 && x > 1.0 && y == MaxReal(1.0, x - 1.0) && 0.0 < rest <= s - s / x
    ensures rest / y <= s / x
  {
    var q := s / x;
    assert s == q * x;
    assert q > 0.0;
    assert s - q == q * (x - 1.0);
    assert q * (x - 1.0) <= q * y;
    assert rest <= q * y;
  }
}
