/**
  Two accounts of the same coupons: the running chart over coupons sorted by
  the time they were placed, and the book, which folds filtered lists in row
  order. A coupon may lack its odd.
 */
module Report {
  import opened Prelude
  import opened Coupons
  import Domain
  import Bankroll = Sandbox

  /**
    A coupon as the report reads it. `win` is what it nets if it wins, by its
    own odd and payout share; None when the odd is missing.
   */
  datatype View = View(id: int, status: CouponStatus, stake: int, win: Option<int>)

  predicate Played(v: View) { (v.status == Won || v.status == Lost) && v.win.Some? }

  /** Rows the balance can be computed from. */
  predicate Safe(v: View) { v.status != Won || v.win.Some? }

  function Effect(v: View): int
    requires Safe(v)
  {
    if v.status == Won then v.win.value
    else if v.status == Open || v.status == Lost then -v.stake
    else 0
  }

  /** How the report reads a coupon of the book. */
  function ViewOf(id: int, c: Coupon): (v: View)
    ensures Safe(v) && Effect(v) == Bankroll.Effect(c)
  {
    View(id, c.status, c.stake, Domain.SettledPnl(c.stake, c.combinedOdd, Domain.Won, Bankroll.KEEP))
  }

  // ------------------------------------------------------------------- the book

  predicate AllSafe(rows: seq<View>) {
    if rows == [] then true else AllSafe(rows[..|rows| - 1]) && Safe(rows[|rows| - 1])
  }

  function SafeRows(rows: seq<View>): seq<View>
  {
    if rows == [] then []
    else if Safe(rows[|rows| - 1]) then SafeRows(rows[..|rows| - 1]) + [rows[|rows| - 1]]
    else SafeRows(rows[..|rows| - 1])
  }

  function PlayedRows(rows: seq<View>): seq<View>
  {
    if rows == [] then []
    else if Played(rows[|rows| - 1]) then PlayedRows(rows[..|rows| - 1]) + [rows[|rows| - 1]]
    else PlayedRows(rows[..|rows| - 1])
  }

  function Total(rows: seq<View>): int
    requires AllSafe(rows)
  {
    if rows == [] then 0 else Total(rows[..|rows| - 1]) + Effect(rows[|rows| - 1])
  }

  function Hits(rows: seq<View>): nat {
    if rows == [] then 0 else Hits(rows[..|rows| - 1]) + if rows[|rows| - 1].status == Won then 1 else 0
  }

  /** One more row: what a fold over filtered rows needs to know. */
  lemma OneMoreRow(rows: seq<View>, v: View)
    requires AllSafe(rows) && Safe(v)
    ensures AllSafe(rows + [v])
    ensures Total(rows + [v]) == Total(rows) + Effect(v)
    ensures Hits(rows + [v]) == Hits(rows) + if v.status == Won then 1 else 0
  {
    assert (rows + [v])[..|rows|] == rows;
  }

  lemma {:induction false} FilteredRowsAreSafe(rows: seq<View>)
    ensures AllSafe(SafeRows(rows)) && AllSafe(PlayedRows(rows))
  {
    if rows != [] {
      var n := |rows| - 1;
      FilteredRowsAreSafe(rows[..n]);
      if Safe(rows[n]) { OneMoreRow(SafeRows(rows[..n]), rows[n]); }
      if Played(rows[n]) { OneMoreRow(PlayedRows(rows[..n]), rows[n]); }
    }
  }

  function Rate(hits: nat, of: nat): real
    requires of > 0
  {
    hits as real / of as real
  }

  /** `hitRate` is in ten-thousandths; None when nothing was played. */
  datatype BookLine = BookLine(played: nat, hits: nat, hitRate: Option<int>, netPnl: int, balance: int)

  function HitRate(hits: nat, played: nat): Option<int> {
    if played == 0 then None else Some(RoundHalfUp(Rate(hits, played) * 10000.0))
  }

  datatype Figures = Figures(played: nat, hits: nat, net: int, effect: int)

  function LineFor(f: Figures): BookLine {
    BookLine(f.played, f.hits, HitRate(f.hits, f.played), f.net, Bankroll.BANKROLL + f.effect)
  }

  function FiguresOf(priced: seq<View>, safe: seq<View>): Figures
    requires AllSafe(priced) && AllSafe(safe)
  {
    Figures(|priced|, Hits(priced), Total(priced), Total(safe))
  }

  function Book(rows: seq<View>): BookLine {
    FilteredRowsAreSafe(rows);
    LineFor(FiguresOf(PlayedRows(rows), SafeRows(rows)))
  }

  // ------------------------------------------------------------------ the chart

  /** A point of the chart; `hit` is a percentage in hundredths. */
  datatype Point = Point(id: int, pnl: int, saldo: int, hit: int)

  function HitOverall(hits: nat, decided: nat): int {
    if decided == 0 then 0 else RoundHalfUp(Rate(hits, decided) * 100.0 * 100.0)
  }

  /** What a run over the coupons has added up. `bare` counts lost coupons without an odd. */
  datatype Tally = Tally(total: int, wins: nat, losses: nat, bare: nat, held: int)

  function Share(v: View): Tally {
    if v.status == Won && v.win.Some? then Tally(v.win.value, 1, 0, 0, 0)
    else if v.status == Open then Tally(-v.stake, 0, 0, 0, v.stake)
    else if v.status == Lost && v.win.Some? then Tally(-v.stake, 0, 1, 0, 0)
    else if v.status == Lost then Tally(-v.stake, 0, 0, 1, v.stake)
    else Tally(0, 0, 0, 0, 0)
  }

  function Plus(a: Tally, b: Tally): Tally {
    Tally(a.total + b.total, a.wins + b.wins, a.losses + b.losses, a.bare + b.bare, a.held + b.held)
  }

  function TallyOf(rows: seq<View>): Tally {
    if rows == [] then Tally(0, 0, 0, 0, 0) else Plus(TallyOf(rows[..|rows| - 1]), Share(rows[|rows| - 1]))
  }

  /** Coupons that get a point: open, void, lost, and won with an odd. */
  predicate Shown(v: View) {
    v.status == Open || v.status == Lost || v.status == Void || (v.status == Won && v.win.Some?)
  }

  function PointAfter(v: View, t: Tally): Point {
    Point(v.id, if v.status == Open then 0 else Share(v).total, Bankroll.BANKROLL + t.total,
          HitOverall(t.wins, t.wins + t.losses + t.bare))
  }

  function Points(ordered: seq<View>): seq<Point> {
    if ordered == [] then []
    else
      var v := ordered[|ordered| - 1];
      var before := Points(ordered[..|ordered| - 1]);
      if Shown(v) then before + [PointAfter(v, TallyOf(ordered))] else before
  }

  lemma ChartNext(ordered: seq<View>, i: nat)
    requires i < |ordered|
    ensures TallyOf(ordered[..i + 1]) == Plus(TallyOf(ordered[..i]), Share(ordered[i]))
    ensures var before, after := Points(ordered[..i]), Points(ordered[..i + 1]);
      after == if Shown(ordered[i]) then before + [PointAfter(ordered[i], TallyOf(ordered[..i + 1]))] else before
  {
    assert ordered[..i + 1][..i] == ordered[..i];
  }

  /** The running figures of the loop hold the tally of the coupons so far. */
  ghost predicate Carries(t: Tally, saldo: int, hits: int, decided: int) {
    saldo == Bankroll.BANKROLL + t.total && hits == t.wins && decided == t.wins + t.losses + t.bare
  }

  /** One turn of the loop: the running figures after a coupon, and its point if it gets one. */
  method Turn(c: View, saldo: int, hits: nat, decided: nat, ghost t: Tally)
    returns (point: Option<Point>, nextSaldo: int, nextHits: nat, nextDecided: nat)
    requires Carries(t, saldo, hits, decided)
    ensures Carries(Plus(t, Share(c)), nextSaldo, nextHits, nextDecided)
    ensures point == if Shown(c) then Some(PointAfter(c, Plus(t, Share(c)))) else None
  {
    nextSaldo, nextHits, nextDecided := saldo, hits, decided;
    var pnl := 0;
    if c.status == Open {
      nextSaldo := saldo - c.stake;
    } else if c.status == Won && c.win.Some? {
      pnl := c.win.value;
      nextSaldo, nextDecided, nextHits := saldo + pnl, decided + 1, hits + 1;
    } else if c.status == Lost {
      pnl := -c.stake;
      nextSaldo, nextDecided := saldo - c.stake, decided + 1;
    } else if c.status != Void {
      return None, saldo, hits, decided;
    }
    point := Some(Point(c.id, pnl, nextSaldo, HitOverall(nextHits, nextDecided)));
  }

  /** The running chart over coupons already sorted. */
  method ChartPoints(ordered: seq<View>) returns (points: seq<Point>)
    ensures points == Points(ordered)
  {
    points := [];
    var saldo, hits, decided := Bankroll.BANKROLL, 0, 0;
    for i := 0 to |ordered|
      invariant points == Points(ordered[..i])
      invariant Carries(TallyOf(ordered[..i]), saldo, hits, decided)
    {
      ChartNext(ordered, i);
      var point;
      point, saldo, hits, decided := Turn(ordered[i], saldo, hits, decided, TallyOf(ordered[..i]));
      if point.Some? { points := points + [point.value]; }
    }
    assert ordered[..|ordered|] == ordered;
  }

  // ---------------------------------------------------------------- agreement

  lemma PlusCommutes(a: Tally, b: Tally, c: Tally)
    ensures Plus(Plus(a, b), c) == Plus(Plus(a, c), b)
  {
  }

  lemma {:induction false} TallyWithout(rows: seq<View>, i: nat)
    requires i < |rows|
    ensures TallyOf(rows) == Plus(TallyOf(Without(rows, i)), Share(rows[i]))
  {
    var n := |rows| - 1;
    if i == n {
      assert Without(rows, i) == rows[..n];
    } else {
      assert Without(rows, i)[..n - 1] == Without(rows[..n], i);
      TallyWithout(rows[..n], i);
      PlusCommutes(TallyOf(Without(rows[..n], i)), Share(rows[i]), Share(rows[n]));
    }
  }

  /** The sort is stable, by time, by id, or anything else: the totals are those of the rows. */
  lemma {:induction false} TallyIgnoresOrder(a: seq<View>, b: seq<View>)
    requires multiset(a) == multiset(b)
    ensures TallyOf(a) == TallyOf(b)
    decreases |a|
  {
    assert |a| == |multiset(a)| && |b| == |multiset(b)|;
    if a != [] {
      var n := |a| - 1;
      assert a[n] in multiset(b);
      var i :| 0 <= i < |b| && b[i] == a[n];
      assert a == a[..n] + [a[n]];
      assert b == b[..i] + [b[i]] + b[i + 1..];
      assert multiset(a[..n]) == multiset(a) - multiset{a[n]};
      assert multiset(Without(b, i)) == multiset(b) - multiset{b[i]};
      TallyIgnoresOrder(a[..n], Without(b, i));
      TallyWithout(b, i);
    }
  }

  lemma {:induction false} PlayedIsTally(rows: seq<View>)
    ensures var t := TallyOf(rows);
      && |PlayedRows(rows)| == t.wins + t.losses && Hits(PlayedRows(rows)) == t.wins
      && AllSafe(PlayedRows(rows)) && Total(PlayedRows(rows)) == t.total + t.held
  {
    if rows != [] {
      var n := |rows| - 1;
      PlayedIsTally(rows[..n]);
      if Played(rows[n]) { OneMoreRow(PlayedRows(rows[..n]), rows[n]); }
    }
  }

  lemma {:induction false} SafeIsTally(rows: seq<View>)
    ensures AllSafe(SafeRows(rows)) && Total(SafeRows(rows)) == TallyOf(rows).total
  {
    if rows != [] {
      var n := |rows| - 1;
      SafeIsTally(rows[..n]);
      if Safe(rows[n]) { OneMoreRow(SafeRows(rows[..n]), rows[n]); }
    }
  }

  /** The line of the book in the figures of a tally. */
  function LineOf(t: Tally): BookLine { LineFor(TallyFigures(t)) }

  function TallyFigures(t: Tally): Figures { Figures(t.wins + t.losses, t.wins, t.total + t.held, t.total) }

  lemma {:induction false} SameFigures(priced: seq<View>, safe: seq<View>, t: Tally)
    requires AllSafe(priced) && AllSafe(safe) && |priced| == t.wins + t.losses && Hits(priced) == t.wins
    requires Total(priced) == t.total + t.held && Total(safe) == t.total
    ensures FiguresOf(priced, safe) == TallyFigures(t)
  {
  }

  lemma {:induction false} BookIsTally(rows: seq<View>)
    ensures Book(rows) == LineOf(TallyOf(rows))
  {
    PlayedIsTally(rows);
    SafeIsTally(rows);
    SameFigures(PlayedRows(rows), SafeRows(rows), TallyOf(rows));
  }

  /** The last point of a chart, or the start if it has none, shows what the tally adds up to. */
  predicate EndsAt(points: seq<Point>, t: Tally) {
    if points == [] then t == Tally(0, 0, 0, 0, 0)
    else
      var last := points[|points| - 1];
      last.saldo == Bankroll.BANKROLL + t.total && last.hit == HitOverall(t.wins, t.wins + t.losses + t.bare)
  }

  lemma ShownAddsAPoint(ordered: seq<View>)
    requires ordered != [] && Shown(ordered[|ordered| - 1])
    ensures EndsAt(Points(ordered), TallyOf(ordered))
  {
    var v := ordered[|ordered| - 1];
    assert Points(ordered) == Points(ordered[..|ordered| - 1]) + [PointAfter(v, TallyOf(ordered))];
  }

  lemma HiddenAddsNothing(ordered: seq<View>)
    requires ordered != [] && !Shown(ordered[|ordered| - 1])
    ensures Points(ordered) == Points(ordered[..|ordered| - 1]) && TallyOf(ordered) == TallyOf(ordered[..|ordered| - 1])
  {
  }

  lemma {:induction false} LastPointHoldsTally(ordered: seq<View>)
    ensures EndsAt(Points(ordered), TallyOf(ordered))
  {
    if ordered != [] {
      LastPointHoldsTally(ordered[..|ordered| - 1]);
      if Shown(ordered[|ordered| - 1]) { ShownAddsAPoint(ordered); } else { HiddenAddsNothing(ordered); }
    }
  }

  function LastSaldo(points: seq<Point>): int {
    if points == [] then Bankroll.BANKROLL else points[|points| - 1].saldo
  }

  lemma {:induction false} BalanceOfTally(rows: seq<View>)
    ensures Book(rows).balance == Bankroll.BANKROLL + TallyOf(rows).total
  {
    BookIsTally(rows);
  }

  lemma {:induction false} SaldoOfTally(ordered: seq<View>)
    ensures LastSaldo(Points(ordered)) == Bankroll.BANKROLL + TallyOf(ordered).total
  {
    LastPointHoldsTally(ordered);
  }

  /** The chart ends at the balance of the book, whatever the order of the rows and of the points. */
  lemma ChartEndsAtTheBalance(rows: seq<View>, ordered: seq<View>)
    requires multiset(ordered) == multiset(rows)
    ensures LastSaldo(Points(ordered)) == Book(rows).balance
  {
    TallyIgnoresOrder(ordered, rows);
    BalanceOfTally(rows);
    SaldoOfTally(ordered);
  }

  function SumOfPnl(points: seq<Point>): int {
    if points == [] then 0 else SumOfPnl(points[..|points| - 1]) + points[|points| - 1].pnl
  }

  function OpenStakes(rows: seq<View>): int {
    if rows == [] then 0
    else OpenStakes(rows[..|rows| - 1]) + if rows[|rows| - 1].status == Open then rows[|rows| - 1].stake else 0
  }

  lemma OnePointMore(points: seq<Point>, p: Point)
    ensures SumOfPnl(points + [p]) == SumOfPnl(points) + p.pnl
  {
    assert (points + [p])[..|points|] == points;
  }

  function PnlOf(v: View): int { if Shown(v) && v.status != Open then Share(v).total else 0 }

  lemma {:induction false} NextPnl(ordered: seq<View>)
    requires ordered != []
    ensures var n := |ordered| - 1;
      SumOfPnl(Points(ordered)) == SumOfPnl(Points(ordered[..n])) + PnlOf(ordered[n])
  {
    var n := |ordered| - 1;
    if Shown(ordered[n]) { OnePointMore(Points(ordered[..n]), PointAfter(ordered[n], TallyOf(ordered))); }
  }

  lemma {:induction false} PnlOrStake(v: View)
    ensures PnlOf(v) - (if v.status == Open then v.stake else 0) == Share(v).total
  {
  }

  /** The results of the points are what the coupons have paid: with the stakes still out they make the balance. */
  lemma {:induction false} PointsAddUp(ordered: seq<View>)
    ensures SumOfPnl(Points(ordered)) - OpenStakes(ordered) == TallyOf(ordered).total
  {
    if ordered != [] {
      PointsAddUp(ordered[..|ordered| - 1]);
      NextPnl(ordered);
      PnlOrStake(ordered[|ordered| - 1]);
    }
  }

  function LastHit(points: seq<Point>): int {
    if points == [] then 0 else points[|points| - 1].hit
  }

  /** What one more coupon of this status adds to the chart. */
  predicate Extends(before: seq<Point>, after: seq<Point>, v: View) {
    var saldo, hit := LastSaldo(before), LastHit(before);
    match v.status
    case Open => after == before + [Point(v.id, 0, saldo - v.stake, hit)]
    case Void => after == before + [Point(v.id, 0, saldo, hit)]
    case Lost =>
      && |after| == |before| + 1 && after[..|before|] == before
      && var p := after[|before|]; p.id == v.id && p.pnl == -v.stake && p.saldo == saldo - v.stake && p.hit <= hit
    case Won =>
      if v.win.None? then after == before
      else
        && |after| == |before| + 1 && after[..|before|] == before
        && var p := after[|before|];
           p.id == v.id && p.pnl == v.win.value && p.saldo == saldo + v.win.value && p.hit >= hit
    case _ => after == before
  }

  lemma QuotientAtMost(a: real, d: real, q: real)
    requires d > 0.0 && a <= q * d
    ensures a / d <= q
  {
  }

  lemma QuotientAtLeast(a: real, d: real, q: real)
    requires d > 0.0 && q * d <= a
    ensures q <= a / d
  {
  }

  lemma TimesOneMore(q: real, a: real, d: real)
    requires q * d == a
    ensures q * (d + 1.0) == a + q
  {
  }

  lemma QuotientWithOneMore(a: real, d: real)
    requires 0.0 <= a <= d && d > 0.0
    ensures a / (d + 1.0) <= a / d <= (a + 1.0) / (d + 1.0)
  {
    var q := a / d;
    QuotientAtMost(a, d, 1.0);
    QuotientAtLeast(a, d, 0.0);
    TimesOneMore(q, a, d);
    QuotientAtMost(a, d + 1.0, q);
    QuotientAtLeast(a + 1.0, d + 1.0, q);
  }

  lemma RateWithOneMore(hits: nat, decided: nat)
    requires 0 < decided && hits <= decided
    ensures Rate(hits, decided + 1) <= Rate(hits, decided) <= Rate(hits + 1, decided + 1)
  {
    QuotientWithOneMore(hits as real, decided as real);
  }

  lemma HitWithOneMore(hits: nat, decided: nat)
    requires hits <= decided
    ensures HitOverall(hits, decided + 1) <= HitOverall(hits, decided) <= HitOverall(hits + 1, decided + 1)
  {
    if decided > 0 { RateWithOneMore(hits, decided); }
  }

  lemma HitAfter(t: Tally, v: View)
    ensures var u := Plus(t, Share(v));
      var before, now := HitOverall(t.wins, t.wins + t.losses + t.bare), HitOverall(u.wins, u.wins + u.losses + u.bare);
      if v.status == Won && v.win.Some? then now >= before
      else if v.status == Lost then now <= before else now == before
  {
    HitWithOneMore(t.wins, t.wins + t.losses + t.bare);
  }

  /** The point of one more coupon, seen from the chart before it. */
  lemma NextPointOf(before: seq<Point>, t: Tally, v: View)
    requires EndsAt(before, t)
    ensures Extends(before, if Shown(v) then before + [PointAfter(v, Plus(t, Share(v)))] else before, v)
  {
    HitAfter(t, v);
  }

  /** One more coupon of any status moves the chart's saldo and hit rate by what it won, lost or holds. */
  lemma {:induction false} NextPointIs(ordered: seq<View>, v: View)
    ensures Extends(Points(ordered), Points(ordered + [v]), v)
  {
    LastPointHoldsTally(ordered);
    NextPointOf(Points(ordered), TallyOf(ordered), v);
    assert (ordered + [v])[..|ordered|] == ordered;
  }

  /** The chart's points explain the balance of the book. */
  lemma PointsExplainTheBalance(rows: seq<View>, ordered: seq<View>)
    requires multiset(ordered) == multiset(rows)
    ensures Book(rows).balance == 20000 + SumOfPnl(Points(ordered)) - OpenStakes(ordered)
  {
    TallyIgnoresOrder(ordered, rows);
    BalanceOfTally(rows);
    PointsAddUp(ordered);
  }

  function ViewsOf(book: seq<Coupon>): seq<View> {
    if book == [] then [] else ViewsOf(book[..|book| - 1]) + [ViewOf(|book| - 1, book[|book| - 1])]
  }

  /** On priced coupons the report shows the balance that placement spends from. */
  lemma {:induction false} ReportShowsTheBankroll(book: seq<Coupon>)
    ensures Book(ViewsOf(book)).balance == Bankroll.Balance(book)
  {
    SafeIsTally(ViewsOf(book));
    ViewsTotal(book);
  }

  lemma {:induction false} ViewsTotal(book: seq<Coupon>)
    ensures TallyOf(ViewsOf(book)).total == Bankroll.TotalEffect(book)
  {
    if book != [] {
      var n := |book| - 1;
      ViewsTotal(book[..n]);
      var v := ViewOf(n, book[n]);
      assert (ViewsOf(book[..n]) + [v])[..|ViewsOf(book[..n])|] == ViewsOf(book[..n]);
      assert Share(v).total == Effect(v);
    }
  }

  /** The balance is the bankroll, the net result of the played coupons, and less what is staked or lost unpriced. */
  lemma BalanceReconciles(rows: seq<View>)
    ensures Book(rows).balance == Bankroll.BANKROLL + Book(rows).netPnl - TallyOf(rows).held
  {
    BookIsTally(rows);
  }

  // -------------------------------------------------------------------- hit rates

  /** Before rounding, lost coupons without an odd change the rate exactly when there are any and something was won. */
  lemma ExactRatesAgreeIff(hits: nat, played: nat, bare: nat)
    requires played > 0
    ensures Rate(hits, played + bare) == Rate(hits, played) <==> bare == 0 || hits == 0
  {
    var x, p, b := hits as real, played as real, bare as real;
    assert (played + bare) as real == p + b;
    assert x / (p + b) * (p + b) == x && x / p * p == x;
    if x / (p + b) == x / p {
      assert x / p * b == 0.0;
    }
  }

  lemma RateScaled(hits: nat, of: nat)
    requires of > 0
    ensures 2.0 * (Rate(hits, of) * 10000.0) * of as real == (20000 * hits) as real
  {
    var q, d := Rate(hits, of), of as real;
    assert q * d == hits as real;
    assert 2.0 * (q * 10000.0) * d == 20000.0 * (q * d);
  }

  /** A rate rounded to hundredths of a percent, in whole numbers. */
  lemma RoundedRate(hits: nat, of: nat, r: int)
    requires of > 0 && r == HitOverall(hits, of)
    ensures HitRate(hits, of) == Some(r) && r >= 0
    ensures (2 * r - 1) * of <= 20000 * hits < (2 * r + 1) * of
  {
    var x := Rate(hits, of) * 10000.0;
    assert Rate(hits, of) >= 0.0 && Rate(hits, of) * 100.0 * 100.0 == x;
    Between(2 * r - 1, 2.0 * x, 2 * r + 1, of, 20000 * hits) by {
      assert r as real - 0.5 <= x < r as real + 0.5;
      RateScaled(hits, of);
    }
  }

  lemma Between(below: int, y: real, above: int, of: nat, whole: int)
    requires of > 0 && below as real <= y < above as real && y * of as real == whole as real
    ensures below * of <= whole < above * of
  {
    Scale(below as real, y, of as real);
    Scale(y, above as real, of as real);
    ProductInReals(below, of);
    ProductInReals(above, of);
  }

  lemma Scale(x: real, y: real, d: real)
    requires d > 0.0
    ensures x <= y ==> x * d <= y * d
    ensures x < y ==> x * d < y * d
  {
  }

  lemma ProductInReals(k: int, of: nat)
    ensures (k * of) as real == k as real * of as real
  {
  }

  /** An odd half of a ten-thousandth parts the two rates: one is rounded above `r`, the other to it. */
  predicate Parts(hits: nat, played: nat, decided: nat, r: nat) {
    (2 * r + 1) * played <= 20000 * hits < (2 * r + 1) * decided
  }

  ghost predicate Parted(hits: nat, played: nat, decided: nat) {
    exists r: nat :: Parts(hits, played, decided, r)
  }

  lemma Wider(k: int, a: nat, b: nat)
    requires a <= b
    ensures k >= 0 ==> k * a <= k * b
    ensures k <= 0 ==> k * b <= k * a
  {
  }

  lemma Steeper(k: int, l: int, a: nat)
    requires k <= l
    ensures k * a <= l * a
  {
  }

  /** The rounded rates agree exactly when no rounding boundary parts them. */
  lemma RoundedRatesAgreeIff(hits: nat, played: nat, bare: nat)
    requires played > 0
    ensures Some(HitOverall(hits, played + bare)) == HitRate(hits, played)
      <==> !Parted(hits, played, played + bare)
  {
    var d := played + bare;
    var low, high := HitOverall(hits, d), HitOverall(hits, played);
    RoundedRate(hits, d, low);
    RoundedRate(hits, played, high);
    if low != high {
      if low > high {
        Wider(2 * high + 1, played, d);
        Steeper(2 * high + 1, 2 * low - 1, d);
        assert false;
      }
      Steeper(2 * low + 1, 2 * high - 1, played);
      assert Parts(hits, played, d, low);
    } else {
      forall r: nat ensures !Parts(hits, played, d, r) {
        if r < low { Steeper(2 * r + 1, 2 * low - 1, d); } else { Steeper(2 * high + 1, 2 * r + 1, played); }
      }
    }
  }

  /** The rate of the chart's last point, in the figures of the tally. */
  lemma LastHitOf(rows: seq<View>, ordered: seq<View>)
    requires multiset(ordered) == multiset(rows) && TallyOf(rows).wins + TallyOf(rows).losses > 0
    ensures var points, t := Points(ordered), TallyOf(rows);
      points != [] && points[|points| - 1].hit == HitOverall(t.wins, t.wins + t.losses + t.bare)
  {
    TallyIgnoresOrder(ordered, rows);
    LastPointHoldsTally(ordered);
  }

  /** The chart's rate over its decided coupons, and exactly when it is the rate of the book. */
  ghost predicate AgreesUnlessParted(hit: int, book: BookLine, bare: nat)
    requires book.played > 0
  {
    && hit == HitOverall(book.hits, book.played + bare)
    && (Some(hit) == book.hitRate <==> !Parted(book.hits, book.played, book.played + bare))
  }

  lemma LineAgreesUnlessParted(hit: int, book: BookLine, bare: nat)
    requires book.played > 0 && book.hitRate == HitRate(book.hits, book.played)
    requires hit == HitOverall(book.hits, book.played + bare)
    ensures AgreesUnlessParted(hit, book, bare)
  {
    RoundedRatesAgreeIff(book.hits, book.played, bare);
  }

  lemma SameAgreement(hit: int, book: BookLine, bare: nat, shown: int, line: BookLine, losses: nat)
    requires book.played > 0 && AgreesUnlessParted(hit, book, bare)
    requires hit == shown && book == line && bare == losses
    ensures AgreesUnlessParted(shown, line, losses)
  {
  }

  lemma TallyAgrees(t: Tally)
    requires t.wins + t.losses > 0
    ensures AgreesUnlessParted(HitOverall(t.wins, t.wins + t.losses + t.bare), LineOf(t), t.bare)
  {
    LineAgreesUnlessParted(HitOverall(t.wins, t.wins + t.losses + t.bare), LineOf(t), t.bare);
  }

  /**
    The chart counts lost coupons without an odd as decided; the book does not
    count them as played. The two reported rates agree exactly when those
    coupons do not move the rate across a rounding boundary.
   */
  lemma HitRatesAgreeIff(rows: seq<View>, ordered: seq<View>)
    requires multiset(ordered) == multiset(rows) && Book(rows).played > 0
    ensures Points(ordered) != []
    ensures AgreesUnlessParted(Points(ordered)[|Points(ordered)| - 1].hit, Book(rows), TallyOf(rows).bare)
  {
    BookIsTally(rows);
    LastHitOf(rows, ordered);
    var t := TallyOf(rows);
    TallyAgrees(t);
    SameAgreement(HitOverall(t.wins, t.wins + t.losses + t.bare), LineOf(t), t.bare,
                  Points(ordered)[|Points(ordered)| - 1].hit, Book(rows), t.bare);
  }

  /** With no such coupon the rates agree; with one they may still, or not. */
  lemma BareLossMayShow()
    ensures forall hits: nat, played: nat :: !Parted(hits, played, played)
    ensures Some(HitOverall(1, 200)) == HitRate(1, 199)
    ensures Some(HitOverall(1, 3)) != HitRate(1, 2)
  {
    RoundedRate(1, 200, HitOverall(1, 200));
    RoundedRate(1, 199, HitOverall(1, 199));
    RoundedRate(1, 3, HitOverall(1, 3));
    RoundedRate(1, 2, HitOverall(1, 2));
  }
}
