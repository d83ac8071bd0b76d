/** The promotion gate's drawdown: one pass over the settled results, in order. */
module Drawdown {
  import opened Prelude

  /** Equity in cents after the first `k` results. */
  function Equity(pnls: seq<int>, bankroll: int, k: nat): int
    requires k <= |pnls|
  {
    if k == 0 then bankroll else Equity(pnls, bankroll, k - 1) + pnls[k - 1]
  }

  /** The fall from one point of the equity curve to a later one. */
  function Fall(pnls: seq<int>, bankroll: int, i: nat, j: nat): int
    requires i <= j <= |pnls|
  {
    Equity(pnls, bankroll, i) - Equity(pnls, bankroll, j)
  }

  /** `worst` is the largest fall anywhere on the curve. */
  ghost predicate WorstFall(pnls: seq<int>, bankroll: int, worst: int) {
    && (forall i: nat, j: nat :: i <= j <= |pnls| ==> Fall(pnls, bankroll, i, j) <= worst)
    && exists i: nat, j: nat :: i <= j <= |pnls| && Fall(pnls, bankroll, i, j) == worst
  }

  lemma WorstFallIsUnique(pnls: seq<int>, bankroll: int, a: int, b: int)
    requires WorstFall(pnls, bankroll, a) && WorstFall(pnls, bankroll, b)
    ensures a == b
  {
    var i: nat, j: nat :| i <= j <= |pnls| && Fall(pnls, bankroll, i, j) == a;
    var k: nat, l: nat :| k <= l <= |pnls| && Fall(pnls, bankroll, k, l) == b;
  }

  /** The fall does not depend on where the curve starts, so only the division sees the bankroll. */
  lemma {:induction false} EquityShifts(pnls: seq<int>, a: int, b: int, k: nat)
    requires k <= |pnls|
    ensures Equity(pnls, a, k) - a == Equity(pnls, b, k) - b
  {
    if k > 0 { EquityShifts(pnls, a, b, k - 1); }
  }

  lemma WorstIgnoresBankroll(pnls: seq<int>, a: int, b: int, worst: int)
    requires WorstFall(pnls, a, worst)
    ensures WorstFall(pnls, b, worst)
  {
    forall i: nat, j: nat | i <= j <= |pnls| ensures Fall(pnls, a, i, j) == Fall(pnls, b, i, j) {
      EquityShifts(pnls, a, b, i);
      EquityShifts(pnls, a, b, j);
    }
    var i: nat, j: nat :| i <= j <= |pnls| && Fall(pnls, a, i, j) == worst;
    assert Fall(pnls, b, i, j) == worst;
  }

  /** Equity, its peak and the worst drop so far, carried through one pass. */
  method LargestDrop(pnls: seq<int>, bankroll: int) returns (worst: int)
    ensures WorstFall(pnls, bankroll, worst) && worst >= 0
  {
    var equity, peak := bankroll, bankroll;
    worst := 0;
    ghost var top: nat, from: nat, to: nat := 0, 0, 0;
    for k := 0 to |pnls|
      invariant equity == Equity(pnls, bankroll, k)
      invariant top <= k && peak == Equity(pnls, bankroll, top)
      invariant forall i: nat :: i <= k ==> Equity(pnls, bankroll, i) <= peak
      invariant from <= to <= k && worst == Fall(pnls, bankroll, from, to) && worst >= 0
      invariant forall i: nat, j: nat :: i <= j <= k ==> Fall(pnls, bankroll, i, j) <= worst
    {
      equity := equity + pnls[k];
      if equity > peak {
        peak, top := equity, k + 1;
      }
      var drop := peak - equity;
      if drop > worst {
        worst, from, to := drop, top, k + 1;
      }
      assert forall i: nat :: i <= k + 1 ==> Equity(pnls, bankroll, i) <= peak;
    }
  }

  /** The ratio in ten-thousandths of the bankroll. */
  function Ratio(worst: int, bankroll: int): int {
    if bankroll == 0 then 0 else RoundHalfUp(worst as real / bankroll as real * 10000.0)
  }

  /** `r` ten-thousandths of `of` are the nearest to `part`, halves up. */
  predicate Nearest(r: int, part: real, of: real) {
    (r as real - 0.5) * of <= part * 10000.0 < (r as real + 0.5) * of
  }

  lemma RoundedIsNearest(part: real, of: real, q: real)
    requires part >= 0.0 && of > 0.0 && q * of == part
    ensures Nearest(RoundHalfUp(q * 10000.0), part, of)
  {
    assert q >= 0.0;
    var x := q * 10000.0;
    var r := RoundHalfUp(x);
    Scaled(r as real - 0.5, x, of);
    Scaled(x, r as real + 0.5, of);
    TenThousandfold(q, of);
  }

  lemma TenThousandfold(q: real, b: real)
    ensures q * 10000.0 * b == q * b * 10000.0
  {
  }

  lemma Scaled(x: real, y: real, b: real)
    requires b > 0.0
    ensures x <= y ==> x * b <= y * b
    ensures x < y ==> x * b < y * b
  {
  }

  /** The ratio is the fall over the bankroll to the nearest ten-thousandth, halves up. */
  lemma RatioIsNearest(worst: int, bankroll: int)
    requires worst >= 0 && bankroll > 0
    ensures Nearest(Ratio(worst, bankroll), worst as real, bankroll as real)
  {
    RoundedIsNearest(worst as real, bankroll as real, worst as real / bankroll as real);
  }

  method MaxDrawdown(pnls: seq<int>, bankroll: int) returns (ratio: int)
    ensures exists worst :: WorstFall(pnls, bankroll, worst)
    ensures forall worst :: WorstFall(pnls, bankroll, worst) ==> ratio == Ratio(worst, bankroll)
  {
    var worst := LargestDrop(pnls, bankroll);
    forall other | WorstFall(pnls, bankroll, other) ensures other == worst {
      WorstFallIsUnique(pnls, bankroll, other, worst);
    }
    if bankroll == 0 { return 0; }
    ratio := RoundHalfUp(worst as real / bankroll as real * 10000.0);
  }
}
