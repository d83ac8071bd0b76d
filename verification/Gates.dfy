/**
  Two separate readings of one gate: what admits a match to the prompt
  (`PlayableCandidate`) and what explains why it was not admitted
  (`LlmPromptGaps`, `ApplyLoneWeak`), with the proofs that they agree.

  Quote rows arrive parsed: `line` is N when the row is Over N+0.5. A timestamp
  without a zone is None, which both sides call stale.
 */
module Gates {
  import opened Prelude
  import opened Domain

  const MIN_ANALYSIS_ODD := 1300
  const MAX_PERIOD_GOALS := 2
  const MAX_FAVORITE_ODD := 2000
  const SHORT_ODD := 1450
  const SHORT_ODD_AFTER_MINUTE := 60
  const SINGLE_MIN_ODD := 1800

  datatype Market = RegulationTotals | ExtraTimeTotals | OtherMarket

  datatype QuoteRow = QuoteRow(
    market: Market, score: Pair, line: Option<int>, odd: Option<int>, tradable: bool, captured: Option<int>)

  datatype LineQuote = LineQuote(odd: Option<int>, tradable: bool, captured: Option<int>)

  datatype MatchSnapshot = MatchSnapshot(
    fixture: int, status: Status, elapsed: Option<int>, extra: Option<int>,
    goals: Pair, extraHome: Option<int>, extraAway: Option<int>,
    rule: string, favoriteOdd: Option<int>)

  datatype PlayLimits = PlayLimits(maxMinuteRegulation: int, maxMinuteExtra: int, maxQuoteAge: int)

  datatype StateKey = StateKey(fixture: int, period: Period, goals: (int, int), ordinal: int)

  datatype Candidate = Candidate(state: StateKey, rule: string, odd: int, n: int)

  datatype Skip = NoLine | Suspended | StaleOdd | MinuteCutoff | Penalties | NotInPlay | OpenCoupon | RejectedState

  datatype PromptGate = PeriodGoals | FavoriteOdd | ShortLate

  // ------------------------------------------------------------ shared parts

  function OrZero(x: Option<int>): int { if x.Some? then x.value else 0 }

  /** The match minute as the clock shows it, plus stoppage. Halftime without a clock is 45. */
  function MatchMinute(m: MatchSnapshot): Option<int> {
    if m.status == HT then Some((if m.elapsed.Some? then m.elapsed.value else 45) + OrZero(m.extra))
    else if m.elapsed.None? then None
    else Some(m.elapsed.value + OrZero(m.extra))
  }

  predicate LlmStatus(s: Status) { s in {H2, ET, BT} }

  function OverUnderMarket(p: Period): Market {
    if p.Regulation? then RegulationTotals else ExtraTimeTotals
  }

  function FirstQuote(rows: seq<QuoteRow>, market: Market, board: (int, int), n: int): Option<LineQuote> {
    if rows == [] then None
    else
      var row := rows[0];
      if row.market == market && row.score == Some(board) && row.line == Some(n)
      then Some(LineQuote(row.odd, row.tradable, row.captured))
      else FirstQuote(rows[1..], market, board, n)
  }

  /** The Over N+0.5 row of the period's own market, stamped with the same score as the match. */
  function QuoteForPeriod(rows: seq<QuoteRow>, p: Period, m: MatchSnapshot): Option<LineQuote> {
    if m.goals.None? then None
    else
      var n := if p.ExtraTime? then OrZero(m.extraHome) + OrZero(m.extraAway)
               else m.goals.value.0 + m.goals.value.1;
      FirstQuote(rows, OverUnderMarket(p), m.goals.value, n)
  }

  /** Which prompt-gate rules this candidate fails, in the order they are asked. */
  function PromptGateMisses(p: Period, n: int, minute: Option<int>, odd: int, favorite: Option<int>): seq<PromptGate> {
    (if n > MAX_PERIOD_GOALS then [PeriodGoals] else [])
    + (if favorite.None? || favorite.value >= MAX_FAVORITE_ODD then [FavoriteOdd] else [])
    + (if p.Regulation? && minute.Some? && minute.value > SHORT_ODD_AFTER_MINUTE && odd < SHORT_ODD
       then [ShortLate] else [])
  }

  // ------------------------------------------------------------- the admitter

  datatype Playability = Blocked(code: Skip) | Playable(period: Period, n: int, state: StateKey)

  predicate Stale(captured: Option<int>, now: Option<int>, maxAge: int) {
    captured.None? || now.None? || now.value - captured.value < 0 || now.value - captured.value > maxAge
  }

  function QuoteBlock(quote: Option<LineQuote>, maxAge: int, now: Option<int>): Option<Skip> {
    if quote.None? || quote.value.odd.None? || quote.value.odd.value <= 1000 then Some(NoLine)
    else if !quote.value.tradable then Some(Suspended)
    else if Stale(quote.value.captured, now, maxAge) then Some(StaleOdd)
    else None
  }

  function Assess(m: MatchSnapshot, quote: Option<LineQuote>, inOpenCoupon: bool,
                  limits: PlayLimits, now: Option<int>): Playability
  {
    if m.status == P then Blocked(Penalties) else
    var period := PeriodFor(m.status);
    if period.None? || m.goals.None? then Blocked(NotInPlay) else
    var n := if period.value.Regulation? then m.goals.value.0 + m.goals.value.1
             else OrZero(m.extraHome) + OrZero(m.extraAway);
    var state := StateKey(m.fixture, period.value, m.goals.value, n + 1);
    var minute := MatchMinute(m);
    var limit := if period.value.ExtraTime? then limits.maxMinuteExtra else limits.maxMinuteRegulation;
    if minute.None? || minute.value > limit then Blocked(MinuteCutoff) else
    var blocked := QuoteBlock(quote, limits.maxQuoteAge, now);
    if blocked.Some? then Blocked(blocked.value)
    else if inOpenCoupon then Blocked(OpenCoupon)
    else Playable(period.value, n, state)
  }

  function PlayableCandidate(m: MatchSnapshot, rows: seq<QuoteRow>, limits: PlayLimits, now: Option<int>,
                             open: set<int>, rejected: set<StateKey>, forLlm: bool): Option<Candidate>
  {
    if forLlm && !LlmStatus(m.status) then None else
    var period := PeriodFor(m.status);
    if period.None? then None else
    var quote := QuoteForPeriod(rows, period.value, m);
    var play := Assess(m, quote, m.fixture in open, limits, now);
    if play.Blocked? || quote.None? || quote.value.odd.None? || quote.value.odd.value < MIN_ANALYSIS_ODD then None
    else if forLlm && PromptGateMisses(play.period, play.n, MatchMinute(m), quote.value.odd.value, m.favoriteOdd) != []
    then None
    else if play.state in rejected || m.fixture in open then None
    else Some(Candidate(play.state, m.rule, quote.value.odd.value, play.n))
  }

  /** The three prompt rules and when each is missed: goals of the period, the favourite, short and late. */
  lemma PromptGatesExactly(p: Period, n: int, minute: Option<int>, odd: int, favorite: Option<int>)
    ensures var misses := PromptGateMisses(p, n, minute, odd, favorite);
      && (PeriodGoals in misses <==> n >= 3)
      && (FavoriteOdd in misses <==> !(favorite.Some? && favorite.value < 2000))
      && (ShortLate in misses <==> p == Regulation && minute.Some? && minute.value > 60 && odd < 1450)
      && (misses == [] <==> PeriodGoals !in misses && FavoriteOdd !in misses && ShortLate !in misses)
  {
    var misses := PromptGateMisses(p, n, minute, odd, favorite);
    if misses != [] { assert misses[0] in misses; }
  }

  /** Goals the next-goal line starts from: those of extra time alone in extra time. */
  function GoalsSoFar(m: MatchSnapshot): int
    requires m.goals.Some?
  {
    if m.status in {ET, BT} then OrZero(m.extraHome) + OrZero(m.extraAway) else m.goals.value.0 + m.goals.value.1
  }

  /** The row prices the next goal of the period in play, on the score of the match. */
  predicate PricesNextGoal(row: QuoteRow, m: MatchSnapshot) {
    && m.status in {H1, HT, H2, ET, BT} && m.goals.Some? && row.score == m.goals
    && row.market == (if m.status in {ET, BT} then ExtraTimeTotals else RegulationTotals)
    && row.line == Some(GoalsSoFar(m))
  }

  lemma {:induction false} FirstQuoteIs(rows: seq<QuoteRow>, m: MatchSnapshot, p: Period, i: nat)
    requires i < |rows| && PricesNextGoal(rows[i], m) && PeriodFor(m.status) == Some(p)
    requires forall j :: 0 <= j < i ==> !PricesNextGoal(rows[j], m)
    ensures FirstQuote(rows, OverUnderMarket(p), m.goals.value, GoalsSoFar(m))
      == Some(LineQuote(rows[i].odd, rows[i].tradable, rows[i].captured))
  {
    if i > 0 {
      assert !PricesNextGoal(rows[0], m);
      assert forall j :: 0 <= j < i - 1 ==> rows[1..][j] == rows[j + 1];
      FirstQuoteIs(rows[1..], m, p, i - 1);
    }
  }

  lemma {:induction false} NoQuoteWithoutRow(rows: seq<QuoteRow>, m: MatchSnapshot, p: Period)
    requires m.goals.Some? && PeriodFor(m.status) == Some(p)
    requires forall j :: 0 <= j < |rows| ==> !PricesNextGoal(rows[j], m)
    ensures FirstQuote(rows, OverUnderMarket(p), m.goals.value, GoalsSoFar(m)).None?
  {
    if rows != [] {
      assert !PricesNextGoal(rows[0], m);
      assert forall j :: 0 <= j < |rows| - 1 ==> rows[1..][j] == rows[j + 1];
      NoQuoteWithoutRow(rows[1..], m, p);
    }
  }

  /** The clock is known, halftime counting as 45, and with stoppage time still within the limit of the period. */
  predicate InTime(m: MatchSnapshot, limits: PlayLimits) {
    && (m.elapsed.Some? || m.status == HT)
    && (if m.elapsed.Some? then m.elapsed.value else 45) + (if m.extra.Some? then m.extra.value else 0)
       <= if m.status in {ET, BT} then limits.maxMinuteExtra else limits.maxMinuteRegulation
  }

  /** An odd of at least 1.300 that can be bet on and is not older than the limit, nor from the future. */
  predicate FreshPrice(row: QuoteRow, limits: PlayLimits, now: Option<int>) {
    && row.odd.Some? && row.odd.value >= 1300 && row.tradable
    && row.captured.Some? && now.Some? && 0 <= now.value - row.captured.value <= limits.maxQuoteAge
  }

  /** What the model's prompt asks on top: the second half or extra time, and the three prompt rules. */
  predicate FitForPrompt(m: MatchSnapshot, odd: int)
    requires m.goals.Some?
  {
    && m.status in {H2, ET, BT} && GoalsSoFar(m) <= 2
    && m.favoriteOdd.Some? && m.favoriteOdd.value < 2000
    && !(m.status == H2 && m.elapsed.Some? && m.elapsed.value + OrZero(m.extra) > 60 && odd < 1450)
  }

  function NextGoalKey(m: MatchSnapshot): StateKey
    requires m.goals.Some?
  {
    StateKey(m.fixture, if m.status in {ET, BT} then ExtraTime else Regulation, m.goals.value, GoalsSoFar(m) + 1)
  }

  /** A match has no leg unless some row prices its next goal. */
  lemma NoRowNoLeg(m: MatchSnapshot, rows: seq<QuoteRow>, limits: PlayLimits, now: Option<int>,
                   open: set<int>, rejected: set<StateKey>, forLlm: bool)
    requires forall j :: 0 <= j < |rows| ==> !PricesNextGoal(rows[j], m)
    ensures PlayableCandidate(m, rows, limits, now, open, rejected, forLlm).None?
  {
    if PeriodFor(m.status).Some? && m.goals.Some? { NoQuoteWithoutRow(rows, m, PeriodFor(m.status).value); }
  }

  /**
    Admission, exactly: with row `i` the first to price the next goal, the match
    has a leg if and only if it is in time, the row is fresh and playable,
    neither the match nor the state is taken, and for the model the prompt's own
    gates pass; and the leg is that row's.
   */
  lemma AdmittedExactly(m: MatchSnapshot, rows: seq<QuoteRow>, i: nat, limits: PlayLimits, now: Option<int>,
                        open: set<int>, rejected: set<StateKey>, forLlm: bool)
    requires i < |rows| && PricesNextGoal(rows[i], m)
    requires forall j :: 0 <= j < i ==> !PricesNextGoal(rows[j], m)
    ensures var leg := PlayableCandidate(m, rows, limits, now, open, rejected, forLlm);
      && (leg.Some? <==>
            && InTime(m, limits) && FreshPrice(rows[i], limits, now)
            && m.fixture !in open && NextGoalKey(m) !in rejected
            && (forLlm ==> FitForPrompt(m, rows[i].odd.value)))
      && (leg.Some? ==> leg.value == Candidate(NextGoalKey(m), m.rule, rows[i].odd.value, GoalsSoFar(m)))
  {
    FirstQuoteIs(rows, m, PeriodFor(m.status).value, i);
  }

  /** Every leg the model may see is the leg the baseline would bet. */
  lemma LlmLegIsBaselineLeg(m: MatchSnapshot, rows: seq<QuoteRow>, limits: PlayLimits, now: Option<int>,
                            open: set<int>, rejected: set<StateKey>)
    requires PlayableCandidate(m, rows, limits, now, open, rejected, true).Some?
    ensures PlayableCandidate(m, rows, limits, now, open, rejected, false)
         == PlayableCandidate(m, rows, limits, now, open, rejected, true)
  {
  }

  // ------------------------------------------------------------ the explainer

  datatype Gap =
    | NotCandidate | NotSecondHalf | MinuteGap | NoLineGap | SuspendedGap | StaleGap | OddLow
    | Missed(gate: PromptGate)
    | LoneWeak | OpenCouponGap | Rejected | PenaltiesGap | NotInPlayGap

  function PeriodGoalsOf(m: MatchSnapshot, p: Period): Option<int> {
    if p.ExtraTime? then Some(OrZero(m.extraHome) + OrZero(m.extraAway))
    else if m.goals.None? then None
    else Some(m.goals.value.0 + m.goals.value.1)
  }

  predicate QuoteIsStale(quote: LineQuote, limits: PlayLimits, now: Option<int>) {
    if quote.captured.None? || now.None? then true
    else
      var age := now.value - quote.captured.value;
      age < 0 || age > limits.maxQuoteAge
  }

  predicate StateRejected(m: MatchSnapshot, rejected: set<StateKey>) {
    var period := PeriodFor(m.status);
    if m.goals.None? || period.None? then false
    else
      var n := if period.value.ExtraTime? then OrZero(m.extraHome) + OrZero(m.extraAway)
               else m.goals.value.0 + m.goals.value.1;
      StateKey(m.fixture, period.value, m.goals.value, n + 1) in rejected
  }

  function MissedGaps(misses: seq<PromptGate>): (gaps: seq<Gap>)
    ensures |gaps| == |misses|
  {
    seq(|misses|, i requires 0 <= i < |misses| => Missed(misses[i]))
  }

  predicate OfStatus(g: Gap) { g.PenaltiesGap? || g.NotSecondHalf? || g.MinuteGap? }

  predicate OfQuote(g: Gap) { g.NoLineGap? || g.SuspendedGap? || g.StaleGap? || g.OddLow? || g.Missed? }

  method StatusGaps(m: MatchSnapshot, limits: PlayLimits) returns (gaps: seq<Gap>)
    ensures gaps == [] <==> LlmStatus(m.status) && WithinMinute(m, limits)
    ensures forall g :: g in gaps ==> OfStatus(g)
    ensures PenaltiesGap in gaps <==> m.status == P
    ensures NotSecondHalf in gaps <==> !LlmStatus(m.status) && m.status != P
    ensures MinuteGap in gaps <==> LlmStatus(m.status) && !WithinMinute(m, limits)
  {
    gaps := [];
    if m.status == P { gaps := gaps + [PenaltiesGap]; }
    var period := PeriodFor(m.status);
    if !LlmStatus(m.status) {
      if m.status != P { gaps := gaps + [NotSecondHalf]; }
    } else {
      var minute := MatchMinute(m);
      var limit := if period == Some(ExtraTime) then limits.maxMinuteExtra else limits.maxMinuteRegulation;
      if minute.None? || minute.value > limit { gaps := gaps + [MinuteGap]; }
    }
    if period.None? && PenaltiesGap !in gaps && NotSecondHalf !in gaps { gaps := gaps + [NotInPlayGap]; }
  }

  /** There is a price above even money. */
  predicate HasLine(quote: Option<LineQuote>) {
    quote.Some? && quote.value.odd.Some? && quote.value.odd.value > 1000
  }

  function MissesOf(m: MatchSnapshot, period: Period, quote: LineQuote): seq<PromptGate>
    requires m.goals.Some? && quote.odd.Some?
  {
    PromptGateMisses(period, PeriodGoalsOf(m, period).value, MatchMinute(m), quote.odd.value, m.favoriteOdd)
  }

  /** Each gap of the quote is listed exactly when it applies. */
  ghost predicate QuoteGapsListed(gaps: seq<Gap>, m: MatchSnapshot, quote: Option<LineQuote>, limits: PlayLimits,
                                  now: Option<int>)
    requires quote.Some? ==> PeriodFor(m.status).Some? && m.goals.Some?
  {
    && (NoLineGap in gaps <==> !HasLine(quote))
    && (SuspendedGap in gaps <==> HasLine(quote) && !quote.value.tradable)
    && (StaleGap in gaps <==> HasLine(quote) && Stale(quote.value.captured, now, limits.maxQuoteAge))
    && (OddLow in gaps <==> HasLine(quote) && quote.value.odd.value < MIN_ANALYSIS_ODD)
    && forall g :: Missed(g) in gaps <==> HasLine(quote) && g in MissesOf(m, PeriodFor(m.status).value, quote.value)
  }

  /** Other gaps around them leave the gaps of the quote as they are. */
  lemma QuoteGapsStay(gaps: seq<Gap>, quoted: seq<Gap>, m: MatchSnapshot, quote: Option<LineQuote>,
                      limits: PlayLimits, now: Option<int>)
    requires quote.Some? ==> PeriodFor(m.status).Some? && m.goals.Some?
    requires QuoteGapsListed(quoted, m, quote, limits, now)
    requires forall g :: OfQuote(g) ==> (g in gaps <==> g in quoted)
    ensures QuoteGapsListed(gaps, m, quote, limits, now)
  {
  }

  lemma MissedMembers(misses: seq<PromptGate>)
    ensures forall g :: Missed(g) in MissedGaps(misses) <==> g in misses
    ensures forall gap :: gap in MissedGaps(misses) ==> gap.Missed?
  {
    forall g | g in misses ensures Missed(g) in MissedGaps(misses) {
      var i :| 0 <= i < |misses| && misses[i] == g;
      assert MissedGaps(misses)[i] == Missed(g);
    }
  }

  method QuoteGaps(m: MatchSnapshot, period: Option<Period>, quote: Option<LineQuote>, limits: PlayLimits,
                   now: Option<int>)
    returns (gaps: seq<Gap>)
    requires quote.Some? ==> period.Some? && m.goals.Some?
    ensures gaps == [] <==> QuotePasses(m, period, quote, limits, now)
    ensures forall g :: g in gaps ==> OfQuote(g)
    ensures period == PeriodFor(m.status) ==> QuoteGapsListed(gaps, m, quote, limits, now)
  {
    gaps := [];
    if quote.None? || quote.value.odd.None? || quote.value.odd.value <= 1000 {
      gaps := gaps + [NoLineGap];
    } else {
      if !quote.value.tradable { gaps := gaps + [SuspendedGap]; }
      if QuoteIsStale(quote.value, limits, now) { gaps := gaps + [StaleGap]; }
      if quote.value.odd.value < MIN_ANALYSIS_ODD { gaps := gaps + [OddLow]; }
      var n := PeriodGoalsOf(m, period.value);
      MissedMembers(MissesOf(m, period.value, quote.value));
      if n.Some? {
        gaps := gaps
          + MissedGaps(PromptGateMisses(period.value, n.value, MatchMinute(m), quote.value.odd.value, m.favoriteOdd));
      }
    }
  }

  predicate WithinMinute(m: MatchSnapshot, limits: PlayLimits) {
    MatchMinute(m).Some?
    && MatchMinute(m).value <= (if PeriodFor(m.status) == Some(ExtraTime) then limits.maxMinuteExtra
                                else limits.maxMinuteRegulation)
  }

  predicate QuotePasses(m: MatchSnapshot, period: Option<Period>, quote: Option<LineQuote>, limits: PlayLimits,
                        now: Option<int>)
    requires quote.Some? ==> period.Some? && m.goals.Some?
  {
    && QuoteBlock(quote, limits.maxQuoteAge, now).None?
    && quote.value.odd.value >= MIN_ANALYSIS_ODD
    && PromptGateMisses(period.value, PeriodGoalsOf(m, period.value).value, MatchMinute(m),
                        quote.value.odd.value, m.favoriteOdd) == []
  }

  /** Admission spelled out gate by gate, in the explainer's terms. */
  lemma AdmittedIff(m: MatchSnapshot, rows: seq<QuoteRow>, limits: PlayLimits, now: Option<int>,
                    open: set<int>, rejected: set<StateKey>)
    ensures var period := PeriodFor(m.status);
      var quote := if period.Some? then QuoteForPeriod(rows, period.value, m) else None;
      PlayableCandidate(m, rows, limits, now, open, rejected, true).Some? <==>
        && LlmStatus(m.status) && WithinMinute(m, limits)
        && QuotePasses(m, period, quote, limits, now)
        && m.fixture !in open && !StateRejected(m, rejected)
  {
  }

  /** The quote that counts for the match; it exists only for a match in play with a score. */
  function QuoteOf(m: MatchSnapshot, rows: seq<QuoteRow>): (quote: Option<LineQuote>)
    ensures quote.Some? ==> PeriodFor(m.status).Some? && m.goals.Some?
  {
    if PeriodFor(m.status).Some? then QuoteForPeriod(rows, PeriodFor(m.status).value, m) else None
  }

  function Joined(a: seq<Gap>, b: seq<Gap>, c: seq<Gap>, d: seq<Gap>, e: seq<Gap>): (r: seq<Gap>)
    ensures r == [] <==> a == [] && b == [] && c == [] && d == [] && e == []
    ensures forall g :: g in r <==> g in a || g in b || g in c || g in d || g in e
  {
    a + b + c + d + e
  }

  /** Each group of gaps keeps to itself, so the whole list holds each gap exactly when its group does. */
  lemma GroupsKeepApart(gaps: seq<Gap>, listed: seq<Gap>, status: seq<Gap>, quoted: seq<Gap>, held: seq<Gap>,
                        refused: seq<Gap>)
    requires gaps == Joined(listed, status, quoted, held, refused)
    requires forall g :: g in status ==> OfStatus(g)
    requires forall g :: g in quoted ==> OfQuote(g)
    requires listed in {[], [NotCandidate]} && held in {[], [OpenCouponGap]} && refused in {[], [Rejected]}
    ensures forall g :: OfQuote(g) ==> (g in gaps <==> g in quoted)
    ensures forall g :: OfStatus(g) ==> (g in gaps <==> g in status)
    ensures (NotCandidate in gaps <==> listed != []) && (OpenCouponGap in gaps <==> held != [])
    ensures (Rejected in gaps <==> refused != []) && LoneWeak !in gaps && NotInPlayGap !in gaps
  {
  }

  /** Every prompt gate the match currently fails; none exactly when the admitter returns a leg. */
  method LlmPromptGaps(m: MatchSnapshot, rows: seq<QuoteRow>, isCandidate: bool, limits: PlayLimits,
                       now: Option<int>, open: set<int>, rejected: set<StateKey>)
    returns (gaps: seq<Gap>)
    ensures gaps == [] <==>
      isCandidate && PlayableCandidate(m, rows, limits, now, open, rejected, true).Some?
    ensures LoneWeak !in gaps && NotInPlayGap !in gaps
    ensures NotCandidate in gaps <==> !isCandidate
    ensures PenaltiesGap in gaps <==> m.status == P
    ensures NotSecondHalf in gaps <==> !LlmStatus(m.status) && m.status != P
    ensures OpenCouponGap in gaps <==> m.fixture in open
    ensures Rejected in gaps <==> StateRejected(m, rejected)
    ensures MinuteGap in gaps <==> LlmStatus(m.status) && !WithinMinute(m, limits)
    ensures QuoteGapsListed(gaps, m, QuoteOf(m, rows), limits, now)
  {
    var period := PeriodFor(m.status);
    var status := StatusGaps(m, limits);
    var quote := QuoteOf(m, rows);
    var quoted := QuoteGaps(m, period, quote, limits, now);
    var held := if m.fixture in open then [OpenCouponGap] else [];
    var refused := if StateRejected(m, rejected) then [Rejected] else [];
    AdmittedIff(m, rows, limits, now, open, rejected);
    var listed := if isCandidate then [] else [NotCandidate];
    gaps := Joined(listed, status, quoted, held, refused);
    GroupsKeepApart(gaps, listed, status, quoted, held, refused);
    QuoteGapsStay(gaps, quoted, m, quote, limits, now);
  }

  // ---------------------------------------------------------- a lone candidate

  /** Whether a candidate set may call the model. Empty or two and more always may. */
  predicate LoneCandidateAllowed(candidates: seq<Candidate>, minCombinedOdd: int) {
    if |candidates| != 1 then true
    else
      var sole := candidates[0];
      sole.state.period.Regulation? && sole.odd >= Max(minCombinedOdd, SINGLE_MIN_ODD)
  }

  /** A single candidate goes to the model only in regulation time, at 1.800 and the strategy's floor or more. */
  lemma LoneCandidateExactly(candidates: seq<Candidate>, minCombinedOdd: int)
    ensures LoneCandidateAllowed(candidates, minCombinedOdd) <==>
      |candidates| == 1 ==>
        candidates[0].state.period == Regulation && candidates[0].odd >= 1800 && candidates[0].odd >= minCombinedOdd
  {
  }

  datatype Listed = Listed(m: MatchSnapshot, rows: seq<QuoteRow>, isCandidate: bool)

  datatype Context = Context(limits: PlayLimits, now: Option<int>, open: set<int>, rejected: set<StateKey>)

  function LegOf(x: Listed, c: Context): Option<Candidate> {
    if x.isCandidate then PlayableCandidate(x.m, x.rows, c.limits, c.now, c.open, c.rejected, true) else None
  }

  function Legs(board: seq<Listed>, c: Context): (legs: seq<Option<Candidate>>)
    ensures |legs| == |board|
    ensures forall i :: 0 <= i < |board| ==> legs[i] == LegOf(board[i], c)
  {
    seq(|board|, i requires 0 <= i < |board| => LegOf(board[i], c))
  }

  /** The legs that exist, in board order: the tick's candidate list. */
  function Candidates(legs: seq<Option<Candidate>>): seq<Candidate> {
    if legs == [] then []
    else
      var last := legs[|legs| - 1];
      Candidates(legs[..|legs| - 1]) + if last.Some? then [last.value] else []
  }

  /** What the tick would send: the candidates, or nothing when a lone one is too weak. */
  function PromptSet(legs: seq<Option<Candidate>>, minCombinedOdd: int): seq<Candidate> {
    var candidates := Candidates(legs);
    if LoneCandidateAllowed(candidates, minCombinedOdd) then candidates else []
  }

  /** Notes before the lone rule: one per match, empty exactly for the matches with a leg. */
  ghost predicate Explains(notes: seq<seq<Gap>>, legs: seq<Option<Candidate>>) {
    |notes| == |legs| && forall i :: 0 <= i < |notes| ==> (notes[i] == [] <==> legs[i].Some?)
  }

  method Notes(board: seq<Listed>, c: Context) returns (notes: seq<seq<Gap>>)
    ensures Explains(notes, Legs(board, c))
  {
    notes := [];
    for k := 0 to |board|
      invariant |notes| == k
      invariant forall i :: 0 <= i < k ==> (notes[i] == [] <==> LegOf(board[i], c).Some?)
    {
      var gaps := LlmPromptGaps(board[k].m, board[k].rows, board[k].isCandidate, c.limits, c.now, c.open, c.rejected);
      notes := notes + [gaps];
    }
  }

  lemma {:induction false} LegsAreCandidates(legs: seq<Option<Candidate>>, i: nat)
    requires i < |legs| && legs[i].Some?
    ensures legs[i].value in Candidates(legs)
  {
    if i < |legs| - 1 { LegsAreCandidates(legs[..|legs| - 1], i); }
  }

  /** The positions of the matches without gaps, one per candidate. */
  method Ready(notes: seq<seq<Gap>>, ghost legs: seq<Option<Candidate>>) returns (ready: seq<int>)
    requires Explains(notes, legs)
    ensures |ready| == |Candidates(legs)|
    ensures forall k :: 0 <= k < |ready| ==> 0 <= ready[k] < |notes| && legs[ready[k]].Some?
    ensures forall k :: 0 <= k < |ready| ==> Candidates(legs)[k] == legs[ready[k]].value
    ensures forall i :: 0 <= i < |notes| && notes[i] == [] ==> i in ready
  {
    ready := [];
    for k := 0 to |notes|
      invariant |ready| == |Candidates(legs[..k])|
      invariant forall j :: 0 <= j < |ready| ==> 0 <= ready[j] < k && legs[ready[j]].Some?
      invariant forall j :: 0 <= j < |ready| ==> Candidates(legs[..k])[j] == legs[ready[j]].value
      invariant forall i :: 0 <= i < k && notes[i] == [] ==> i in ready
    {
      assert legs[..k + 1][..k] == legs[..k];
      if notes[k] == [] { ready := ready + [k]; }
    }
    assert legs[..|notes|] == legs;
  }

  /** The candidate `_apply_lone_weak` rebuilds is the admitted leg, but for its rule. */
  lemma RebuiltIsTheLeg(m: MatchSnapshot, rows: seq<QuoteRow>, limits: PlayLimits, now: Option<int>,
                        open: set<int>, rejected: set<StateKey>)
    requires PlayableCandidate(m, rows, limits, now, open, rejected, true).Some?
    ensures PeriodFor(m.status).Some? && m.goals.Some?
    ensures var period := PeriodFor(m.status).value;
      var quote := QuoteForPeriod(rows, period, m);
      && quote.Some? && quote.value.odd.Some? && PeriodGoalsOf(m, period).Some?
      && var n := PeriodGoalsOf(m, period).value;
         PlayableCandidate(m, rows, limits, now, open, rejected, true)
         == Some(Candidate(StateKey(m.fixture, period, m.goals.value, n + 1), m.rule, quote.value.odd.value, n))
  {
  }

  /**
    Marks the sole prompt-ready match when the lone rule blocks the call. After
    it, a note is free of gaps exactly when its match is in the set the tick
    would send to the model.
   */
  method ApplyLoneWeak(board: seq<Listed>, c: Context, minCombinedOdd: int, notes: seq<seq<Gap>>)
    returns (marked: seq<seq<Gap>>)
    requires Explains(notes, Legs(board, c))
    ensures |marked| == |board|
    ensures forall i :: 0 <= i < |board| ==>
      (marked[i] == [] <==>
        LegOf(board[i], c).Some? && LegOf(board[i], c).value in PromptSet(Legs(board, c), minCombinedOdd))
    ensures forall i :: 0 <= i < |board| ==> marked[i] == notes[i] || (notes[i] == [] && marked[i] == [LoneWeak])
  {
    ghost var legs := Legs(board, c);
    forall i | 0 <= i < |board| && legs[i].Some? ensures legs[i].value in Candidates(legs) {
      LegsAreCandidates(legs, i);
    }
    marked := notes;
    var ready := Ready(notes, legs);
    if |ready| != 1 { return; }
    var only := ready[0];
    var m, rows := board[only].m, board[only].rows;
    assert LegOf(board[only], c).Some?;
    // So the guards against a missing period, quote or score never fire on a ready match.
    RebuiltIsTheLeg(m, rows, c.limits, c.now, c.open, c.rejected);
    var period := PeriodFor(m.status).value;
    var n := PeriodGoalsOf(m, period).value;
    var odd := QuoteForPeriod(rows, period, m).value.odd.value;
    var candidate := Candidate(StateKey(m.fixture, period, m.goals.value, n + 1), "", odd, n);
    assert Candidates(legs) == [legs[only].value];
    if LoneCandidateAllowed([candidate], minCombinedOdd) { return; }
    marked := notes[only := notes[only] + [LoneWeak]];
  }
}
