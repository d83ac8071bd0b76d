/**
  Next-goal rules: what settles a leg and a coupon, what the live board
  already shows, and what a coupon pays. Odds are whole thousandths, stakes
  and payouts whole cents.
 */
module Domain {
  import opened Prelude

  datatype Period = Regulation | ExtraTime

  /** Match status as the feed names it. */
  datatype Status =
    | H1 | HT | H2 | ET | BT | P
    | SUSP | INT | LIVE
    | FT | AET | PEN
    | PST | CANC | ABD | AWD | WO
    | Other

  datatype Settlement = Pending | Won | Lost | Void | Manual

  datatype LiveProgress = Hit | Open | Failed | Voided | Unknown

  type Pair = Option<(int, int)>

  predicate Irregular(s: Status) { s in {PST, CANC, ABD, AWD, WO} }

  predicate Finished(s: Status) { s in {FT, AET, PEN} }

  predicate InPause(s: Status) { s in {SUSP, INT, LIVE} }

  predicate PeriodEnded(p: Period, s: Status) {
    match p
    case Regulation => s in {ET, BT, P, FT, AET, PEN}
    case ExtraTime => s in {P, FT, AET, PEN}
  }

  function PeriodFor(s: Status): Option<Period> {
    if s in {H1, HT, H2} then Some(Regulation)
    else if s in {ET, BT} then Some(ExtraTime)
    else None
  }

  // -------------------------------------------------------------- settlement

  datatype FinalScore = FinalScore(
    status: Status, fulltime: Pair, extratime: Pair, refreshed: bool, awaitingManual: bool)

  function FinalGoals(p: Period, score: FinalScore): Option<int> {
    var pair := if p.Regulation? then score.fulltime else score.extratime;
    if pair.None? then None else Some(pair.value.0 + pair.value.1)
  }

  function SettleLeg(p: Period, n: int, score: FinalScore): Settlement {
    if Irregular(score.status) then Void
    else if !Finished(score.status) then (if score.awaitingManual then Manual else Pending)
    else if !score.refreshed then Pending
    else
      var total := FinalGoals(p, score);
      if total.None? then Manual
      else if total.value > n then Won
      else Lost
  }

  /** One lost leg loses the coupon even while another leg is still open. */
  function SettleCoupon(outcomes: seq<Settlement>): Settlement
    requires outcomes != []
  {
    if Lost in outcomes then Lost
    else if Manual in outcomes then Manual
    else if Pending in outcomes then Pending
    else if Won in outcomes then Won
    else Void
  }

  // ------------------------------------------------------------ live preview

  datatype LiveScore = LiveScore(status: Status, goals: Pair, fulltime: Pair, extratime: Pair)

  function PeriodScoreNow(p: Period, score: LiveScore): Pair {
    match p
    case Regulation =>
      if PeriodEnded(Regulation, score.status) then score.fulltime
      else if score.status in {H1, HT, H2} || InPause(score.status) then
        if InPause(score.status) && score.fulltime.Some? then score.fulltime else score.goals
      else None
    case ExtraTime =>
      if score.extratime.Some? then score.extratime
      else if (score.status in {ET, BT} || InPause(score.status)) && score.goals.Some? && score.fulltime.Some? then
        Some((score.goals.value.0 - score.fulltime.value.0, score.goals.value.1 - score.fulltime.value.1))
      else None
  }

  function LiveLegProgress(p: Period, n: int, score: LiveScore): LiveProgress {
    if Irregular(score.status) then Voided
    else
      var board := PeriodScoreNow(p, score);
      if board.None? then (if PeriodEnded(p, score.status) then Failed else Unknown)
      else if board.value.0 + board.value.1 > n then Hit
      else if PeriodEnded(p, score.status) then Failed
      else Open
  }

  function LiveCouponProgress(outcomes: seq<LiveProgress>): LiveProgress
    requires outcomes != []
  {
    if Failed in outcomes then Failed
    else if Unknown in outcomes then Unknown
    else if Open in outcomes then Open
    else if Hit in outcomes then Hit
    else Voided
  }

  /** What the ledger would call a live state. */
  function AsLedger(p: LiveProgress): Settlement {
    match p
    case Hit => Won
    case Open => Pending
    case Failed => Lost
    case Voided => Void
    case Unknown => Manual
  }

  function AsLedgerAll(ps: seq<LiveProgress>): (r: seq<Settlement>)
    ensures |r| == |ps|
  {
    seq(|ps|, i requires 0 <= i < |ps| => AsLedger(ps[i]))
  }

  lemma LedgerMembers(ps: seq<LiveProgress>, p: LiveProgress)
    ensures AsLedger(p) in AsLedgerAll(ps) <==> p in ps
  {
    if p in ps {
      var i :| 0 <= i < |ps| && ps[i] == p;
      assert AsLedgerAll(ps)[i] == AsLedger(p);
    }
  }

  /** The coupon preview commutes with coupon settlement. */
  lemma PreviewCommutesWithSettlement(ps: seq<LiveProgress>)
    requires ps != []
    ensures AsLedger(LiveCouponProgress(ps)) == SettleCoupon(AsLedgerAll(ps))
  {
    LedgerMembers(ps, Failed);
    LedgerMembers(ps, Unknown);
    LedgerMembers(ps, Open);
    LedgerMembers(ps, Hit);
  }

  /** Neither verdict depends on the order of the legs. */
  lemma VerdictIgnoresOrder(a: seq<Settlement>, b: seq<Settlement>, c: seq<LiveProgress>, d: seq<LiveProgress>)
    requires a != [] && c != [] && multiset(a) == multiset(b) && multiset(c) == multiset(d)
    ensures b != [] && d != []
    ensures SettleCoupon(a) == SettleCoupon(b) && LiveCouponProgress(c) == LiveCouponProgress(d)
  {
    assert a[0] in multiset(b) && c[0] in multiset(d);
    assert forall s: Settlement :: s in a <==> s in multiset(a);
    assert forall s: Settlement :: s in b <==> s in multiset(b);
    assert forall p: LiveProgress :: p in c <==> p in multiset(c);
    assert forall p: LiveProgress :: p in d <==> p in multiset(d);
  }

  /** A lost coupon stays lost whatever its other legs become. */
  lemma LostIsFinal(before: seq<Settlement>, after: seq<Settlement>)
    requires before != [] && |after| == |before| && SettleCoupon(before) == Lost
    requires forall i :: 0 <= i < |before| && before[i] == Lost ==> after[i] == Lost
    ensures SettleCoupon(after) == Lost
  {
    var i :| 0 <= i < |before| && before[i] == Lost;
    assert after[i] in after;
  }

  /** A coupon wins exactly when at least one leg won and the rest won or were void. */
  lemma WonExactly(outcomes: seq<Settlement>)
    requires outcomes != []
    ensures SettleCoupon(outcomes) == Won <==>
      Won in outcomes && forall s :: s in outcomes ==> s == Won || s == Void
  {
  }

  function Gravity(s: Settlement): int {
    match s
    case Void => 0
    case Won => 1
    case Pending => 2
    case Manual => 3
    case Lost => 4
  }

  /** A coupon is worth its gravest leg: lost over manual over pending over won over void. */
  lemma VerdictIsTheGravestLeg(outcomes: seq<Settlement>)
    requires outcomes != []
    ensures SettleCoupon(outcomes) in outcomes
    ensures forall s :: s in outcomes ==> Gravity(s) <= Gravity(SettleCoupon(outcomes))
  {
    if SettleCoupon(outcomes) == Void { assert outcomes[0] == Void; }
  }

  /** How a leg settles, in the words of the feed: by status, detail and the goals of its own period. */
  lemma LegSettlesExactly(p: Period, n: int, score: FinalScore)
    ensures var verdict := SettleLeg(p, n, score);
      var goals := if p == Regulation then score.fulltime else score.extratime;
      var told := score.status in {FT, AET, PEN} && score.refreshed;
      && (verdict == Void <==> score.status in {PST, CANC, ABD, AWD, WO})
      && (verdict == Won <==> told && goals.Some? && goals.value.0 + goals.value.1 > n)
      && (verdict == Lost <==> told && goals.Some? && goals.value.0 + goals.value.1 <= n)
      && (verdict == Manual <==>
            (told && goals.None?)
            || (score.awaitingManual && score.status !in {FT, AET, PEN, PST, CANC, ABD, AWD, WO}))
  {
  }

  /** In play a leg is a hit from the goal that passes its line on; extra time counts its own goals. */
  lemma InPlayPreview(n: int, live: LiveScore, home: int, away: int)
    requires live.goals == Some((home, away))
    ensures live.status in {H1, HT, H2} ==>
      LiveLegProgress(Regulation, n, live) == if home + away > n then Hit else Open
    ensures live.status in {ET, BT} && live.extratime.None? && live.fulltime.Some? ==>
      LiveLegProgress(ExtraTime, n, live)
      == if home + away - (live.fulltime.value.0 + live.fulltime.value.1) > n then Hit else Open
  {
  }

  /** An interruption shows what the board showed before it. */
  lemma InterruptionChangesNothing(p: Period, n: int, live: LiveScore)
    requires live.status in {SUSP, INT, LIVE}
    ensures live.fulltime.None? ==>
      LiveLegProgress(Regulation, n, live) == LiveLegProgress(Regulation, n, live.(status := H2))
    ensures live.fulltime.Some? ==>
      LiveLegProgress(Regulation, n, live) == if live.fulltime.value.0 + live.fulltime.value.1 > n then Hit else Open
    ensures LiveLegProgress(ExtraTime, n, live) == LiveLegProgress(ExtraTime, n, live.(status := ET))
  {
  }

  /** Once its period is over a leg is decided by that period's own score, whatever the board adds. */
  lemma EndedPeriodPreview(n: int, live: LiveScore)
    ensures live.status in {ET, BT, P, FT, AET, PEN} ==>
      (LiveLegProgress(Regulation, n, live) == Hit
       <==> live.fulltime.Some? && live.fulltime.value.0 + live.fulltime.value.1 > n)
      && LiveLegProgress(Regulation, n, live) in {Hit, Failed}
    ensures live.status in {P, FT, AET, PEN} ==>
      (LiveLegProgress(ExtraTime, n, live) == Hit
       <==> live.extratime.Some? && live.extratime.value.0 + live.extratime.value.1 > n)
      && LiveLegProgress(ExtraTime, n, live) in {Hit, Failed}
  {
  }

  /** The score that settles this period is there. */
  predicate CompleteFor(p: Period, score: LiveScore) {
    if p.Regulation? then score.fulltime.Some? else score.extratime.Some?
  }

  /**
    On a finished, refreshed match the preview and the ledger agree exactly
    when the period's score is complete. An incomplete one reads as failed on
    the board but waits for an operator in the ledger.
   */
  lemma FinishedPreviewAgreesIffComplete(p: Period, n: int, live: LiveScore, awaiting: bool)
    requires Finished(live.status)
    ensures var ledger := SettleLeg(p, n, FinalScore(live.status, live.fulltime, live.extratime, true, awaiting));
      var board := LiveLegProgress(p, n, live);
      && (AsLedger(board) == ledger <==> CompleteFor(p, live))
      && (board == Hit <==> ledger == Won)
      && (!CompleteFor(p, live) ==> board == Failed && ledger == Manual)
  {
  }

  // ------------------------------------------------------------------- money

  /** Exact product of odds given in thousandths. */
  function Product(odds: seq<int>): real {
    if odds == [] then 1.0 else Scaled(Product(odds[..|odds| - 1]), odds[|odds| - 1])
  }

  function Scaled(x: real, odd: int): real { x * (odd as real / 1000.0) }

  predicate PricedAboveOne(odds: seq<int>) {
    forall i :: 0 <= i < |odds| ==> odds[i] > 1000
  }

  /** Combined odd of a coupon in thousandths; None where pricing raises. */
  function CombinedOdd(odds: seq<int>): Option<int> {
    if odds == [] || !PricedAboveOne(odds) then None
    else Some(RoundHalfUp(Product(odds) * 1000.0))
  }

  /** The accumulating loop, which raises on the first odd that is not above 1. */
  method CombineOdds(odds: seq<int>) returns (combined: Option<int>)
    ensures combined == CombinedOdd(odds)
  {
    if odds == [] { return None; }
    var total := 1.0;
    for i := 0 to |odds|
      invariant total == Product(odds[..i])
      invariant PricedAboveOne(odds[..i])
    {
      if odds[i] <= 1000 { return None; }
      assert odds[..i + 1][..i] == odds[..i];
      total := Scaled(total, odds[i]);
    }
    assert odds[..|odds|] == odds;
    combined := Some(RoundHalfUp(total * 1000.0));
  }

  lemma {:induction false} ProductAboveOne(odds: seq<int>)
    requires PricedAboveOne(odds)
    ensures Product(odds) >= 1.0
    ensures odds != [] ==> Product(odds) >= 1.001
  {
    if odds != [] {
      var front, last := odds[..|odds| - 1], odds[|odds| - 1];
      ProductAboveOne(front);
      assert last as real / 1000.0 >= 1.001;
      Grow(Product(front), last as real / 1000.0);
    }
  }

  lemma Grow(x: real, y: real)
    requires x >= 1.0 && y >= 1.001
    ensures x * y >= 1.001
  {
    assert x * y >= 1.0 * y;
  }

  /** Rounding never takes a priced coupon back to even money. */
  lemma CombinedAboveOne(odds: seq<int>)
    requires CombinedOdd(odds).Some?
    ensures CombinedOdd(odds).value >= 1001
  {
    ProductAboveOne(odds);
    RoundMonotone(1001.0, Product(odds) * 1000.0);
    RoundOfInteger(1001);
  }

  /** The combined odd is the exact product to the nearest thousandth, halves up; None for no odd or one not above 1. */
  lemma CombinedIsNearest(odds: seq<int>)
    ensures CombinedOdd(odds).None? <==> odds == [] || exists i :: 0 <= i < |odds| && odds[i] <= 1000
    ensures CombinedOdd(odds).Some? ==>
      CombinedOdd(odds).value as real - 0.5 <= Product(odds) * 1000.0 < CombinedOdd(odds).value as real + 0.5
  {
    if CombinedOdd(odds).Some? { ProductAboveOne(odds); }
  }

  lemma ScaledCommutes(x: real, a: int, b: int)
    ensures Scaled(Scaled(x, a), b) == Scaled(Scaled(x, b), a)
  {
  }

  lemma {:induction false} ProductWithout(odds: seq<int>, i: nat)
    requires i < |odds|
    ensures Product(odds) == Scaled(Product(Without(odds, i)), odds[i])
  {
    var n := |odds| - 1;
    var front, last := odds[..n], odds[n];
    if i == n {
      assert Without(odds, i) == front;
    } else {
      ProductWithout(front, i);
      var rest := Without(odds, i);
      assert rest[..|rest| - 1] == Without(front, i) && rest[|rest| - 1] == last;
      ScaledCommutes(Product(Without(front, i)), odds[i], last);
    }
  }

  lemma WithoutCounts(odds: seq<int>, i: nat)
    requires i < |odds|
    ensures multiset(Without(odds, i)) == multiset(odds) - multiset{odds[i]}
  {
    assert odds == odds[..i] + [odds[i]] + odds[i + 1..];
    var rest := multiset(Without(odds, i));
    assert multiset(odds) == rest + multiset{odds[i]};
    assert (rest + multiset{odds[i]}) - multiset{odds[i]} == rest;
  }

  /** The rows come back in any order; the combined odd is the same for all of them. */
  lemma {:induction false} CombinedIgnoresOrder(a: seq<int>, b: seq<int>)
    requires multiset(a) == multiset(b)
    ensures CombinedOdd(a) == CombinedOdd(b)
  {
    ProductIgnoresOrder(a, b);
    SameLength(a, b);
    PricedIgnoresOrder(a, b);
    PricedIgnoresOrder(b, a);
  }

  lemma SameLength(a: seq<int>, b: seq<int>)
    requires multiset(a) == multiset(b)
    ensures |a| == |b|
  {
    assert |a| == |multiset(a)| && |b| == |multiset(b)|;
  }

  lemma PricedIgnoresOrder(a: seq<int>, b: seq<int>)
    requires multiset(a) == multiset(b)
    ensures PricedAboveOne(a) ==> PricedAboveOne(b)
  {
    if PricedAboveOne(a) {
      forall i | 0 <= i < |b| ensures b[i] > 1000 {
        assert b[i] in multiset(a);
      }
    }
  }

  lemma {:induction false} ProductIgnoresOrder(a: seq<int>, b: seq<int>)
    requires multiset(a) == multiset(b)
    ensures Product(a) == Product(b)
    decreases |a|
  {
    SameLength(a, b);
    if a != [] {
      var n := |a| - 1;
      assert a[n] in multiset(b);
      var i :| 0 <= i < |b| && b[i] == a[n];
      WithoutCounts(a, n);
      WithoutCounts(b, i);
      assert Without(a, n) == a[..n];
      ProductIgnoresOrder(a[..n], Without(b, i));
      ProductWithout(b, i);
    }
  }

  /** Net result of a settled coupon in cents; None where the outcome is not a settled one. */
  function SettledPnl(stake: int, odd: int, outcome: Settlement, keep: int): Option<int> {
    match outcome
    case Won => Some(RoundHalfUp(stake as real * (odd as real / 1000.0) * (keep as real / 1000.0) - stake as real))
    case Lost => Some(-stake)
    case Void => Some(0)
    case Pending => None
    case Manual => None
  }

  /** A settled coupon can lose its stake and nothing more. */
  lemma PnlAtLeastStake(stake: int, odd: int, outcome: Settlement, keep: int)
    requires stake >= 0 && odd >= 0 && keep >= 0 && SettledPnl(stake, odd, outcome, keep).Some?
    ensures SettledPnl(stake, odd, outcome, keep).value >= -stake
  {
    var paid := stake as real * (odd as real / 1000.0);
    assert paid >= 0.0 by { NonNegativeProduct(stake as real, odd as real / 1000.0); }
    NonNegativeProduct(paid, keep as real / 1000.0);
    RoundMonotone((-stake) as real, paid * (keep as real / 1000.0) - stake as real);
    RoundOfInteger(-stake);
  }

  lemma PaidInMillionths(stake: int, odd: int, keep: int)
    ensures stake as real * (odd as real / 1000.0) * (keep as real / 1000.0)
      == (stake * odd * keep) as real / 1_000_000.0
  {
    var s, o, k := stake as real, odd as real, keep as real;
    assert (stake * odd) as real == s * o && (stake * odd * keep) as real == (stake * odd) as real * k;
    assert s * (o / 1000.0) == s * o / 1000.0;
  }

  /**
    A won coupon pays stake times odd, of which the kept share stays, to the
    nearest cent with halves away from zero; net of the stake. A lost one costs
    the stake, a void one nothing, and an open one has no result.
   */
  lemma WonPaysTheKeptShare(stake: int, odd: int, keep: int)
    ensures SettledPnl(stake, odd, Won, keep).Some?
    ensures var net := SettledPnl(stake, odd, Won, keep).value;
      var off := 1_000_000 * (net + stake) - stake * odd * keep;
      && -500_000 <= off <= 500_000
      && (off == 500_000 ==> net > 0)
      && (off == -500_000 ==> net < 0)
    ensures SettledPnl(stake, odd, Lost, keep) == Some(-stake) && SettledPnl(stake, odd, Void, keep) == Some(0)
    ensures SettledPnl(stake, odd, Pending, keep).None? && SettledPnl(stake, odd, Manual, keep).None?
  {
    PaidInMillionths(stake, odd, keep);
    var whole := stake * odd * keep;
    var x := whole as real / 1_000_000.0 - stake as real;
    var net := RoundHalfUp(x);
    assert net == SettledPnl(stake, odd, Won, keep).value;
    assert 1_000_000.0 * x == (whole - 1_000_000 * stake) as real;
  }

  lemma NonNegativeProduct(x: real, y: real)
    requires x >= 0.0 && y >= 0.0
    ensures x * y >= 0.0
  {
  }
}
