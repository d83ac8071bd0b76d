# Budget, ledger and protocol model of the match predictor

The predictor polls a football API under a daily request quota, keeps a ledger
of sandbox and recommended coupons, and asks a language model for decisions
under a daily budget. This project models the bookkeeping behind those three
things and the gates that guard them, and proves what they keep over whole
runs.

`dafny verify dfyconfig.toml` checks everything.

## How to read it

* **Request budget.** `SweepLine` turns kickoffs into tiled segments and proves
  that they integrate the true load; `Planner` fits scores, detail, odds and
  one-shot calls into the quota; `Drip` paces history; `RateWindow` is the
  client's call windows; `HistorySpend` is the scheduler's spender on top of
  that client; `Credit` and `LiveContext` are the fractional allowance of live
  context and the refresh that spends it.
* **Ledger.** `Domain` holds the settlement rules and the money, `Coupons` the
  rows and the invariant every coupon keeps, `Settle` and `RecommendOps` what a
  pass and an action do to one coupon, `Ledger` the same as loops over mutable
  rows, `Sandbox` the virtual bankroll, `Report` the book and the chart,
  `Drawdown` the promotion gate's measure.
* **Model calls.** `Gates` is what admits a match to the prompt and what explains
  a refusal, `Debounce` decides when to call, `CycleProtocol` bounds what the
  calls of a day may cost.

Code that changes rows or fields in place is a class or a method with a loop,
proved equal to a pure function; the laws are lemmas about those functions.
Times are whole microseconds, stakes whole cents, odds whole thousandths, model
costs whole ten-thousandths of a PLN. Floats are idealised as reals; Decimal
rounding is an explicit half-away-from-zero function. What clocks, vendors,
operators and the provider do is an arbitrary script or parameter.

## What turned out not to hold as promised

* Stretched detail is affordable exactly when at least two calls are left for
  match bodies (`Planner.RealisableIffTwoBodyCalls`): with one, both cadence
  tiers are promised a call each.
* The history drip leaves nothing only while the lane ceiling allows; with a
  ceiling it leaves exactly the part the remaining windows could not take
  (`Drip.DripLeavesOnlyTheCappedPart`, `Drip.CapStrandsCalls`).
* Settling the last leg by hand leaves the coupon open with its stake spent,
  through every run until a pass touches one of its legs and leaves them
  decisive (`RecommendOps.HandSettledWaitsForAPass`); that pass may overwrite
  the operator (`Settle.HandVerdictSurvivesIff`).
* On a finished match with an incomplete score the live board says failed while
  the ledger waits for an operator (`Domain.FinishedPreviewAgreesIffComplete`).
* A settlement pass fails as a whole when a verdict corrected to manual takes
  back a match that somebody holds meanwhile (`Ledger.FlushPassesIff`,
  `Ledger.ManualCorrectionCanCollide`).
* The sandbox balance never goes negative through placement and first
  settlement; with corrections it stays so exactly while every pass covers what
  it takes back (`Sandbox.SolventIffCovered`, `Sandbox.LosesMoneyIff`,
  `Sandbox.CorrectionCanOverdraw`).
* The chart's rounded hit rate equals the book's exactly when lost coupons
  without an odd do not move it across a rounding boundary
  (`Report.HitRatesAgreeIff`).
* The docstring of `run_cycle` says a crash after the call still leaves the paid
  cost in the daily sum. It does not: what was paid on a day is short of its sum
  by what ended callers lost (`CycleProtocol.PaidIsAccountedFor`,
  `CycleProtocol.CrashLosesThePaidCost`). A summary loses its paid call without
  anybody dying when the database refuses its proposal. A run loses a call
  exactly when somebody ends between the call and its commit or such a row is
  refused (`CycleProtocol.LosesIffEndedOrRefused`,
  `CycleProtocol.RefusedSummaryLosesThePaidCost`).
* Summaries read the sum once for a whole batch and take no lock. A day then
  keeps its bound exactly when a fresh reading would still have allowed its last
  call (`CycleProtocol.DayWithSummaries`, `CycleProtocol.BatchKeepsTheCapIff`);
  two of them can spend the limit twice
  (`CycleProtocol.TwoSummariesSpendTheLimitTwice`).
* A live-context refresh that raises gives back the credit of the calls it made.
  Calls counted then pass the bucket's bound by at most what raising refreshes
  made, a slot pays for its calls exactly when it did not raise or made no more
  than the cap cut off, and three slots can make six calls for three credits
  (`LiveContext.SlotPaysIff`, `LiveContext.CallsBoundedButForRaises`,
  `LiveContext.RaisingBreaksTheBound`).

## Model

| member | source | states |
|---|---|---|
| SweepLine.InPlayForTwoHours | src/predictor/services/quota.py:581-604 | What is on the board now and what kicks off stay in play for two hours |
| SweepLine.Windows | src/predictor/services/quota.py:581-604 | Every window lies in the rest of the day, and at every instant the windows count exactly the matches on the board and in the forecast that are in play |
| SweepLine.Segments | src/predictor/services/quota.py:607-626 | The segments tile the rest of the day without gap or overlap, and the midpoint sample is the true concurrency at every instant of its segment |
| SweepLine.MidpointSpeaksForGap | src/predictor/services/quota.py:616-625 | Concurrency does not change between neighbouring points, so the half-even midpoint may stand for the gap |
| SweepLine.SegmentsIntegrateLoad | src/predictor/services/quota.py:607-626 | Concurrency times duration summed over any true tiling is the sum of the load over every instant |
| SweepLine.MatchMicros | src/predictor/services/quota.py:629-636 | The loop returns the windows' match time clipped to the day |
| SweepLine.ClippedIntegratesLoad | src/predictor/services/quota.py:629-636 | Summing clipped windows one by one gives the sum of the load over every instant |
| SweepLine.SweepEqualsDirect | src/predictor/services/quota.py:607-636 | The segments' integral and the direct sum over windows are the same number |
| SweepLine.BusyMicros | src/predictor/services/quota.py:639-644 | The busy time is the number of instants at which something is in play |
| SweepLine.IntegratedPolls | src/predictor/services/quota.py:647-658 | Polls are busy time over the busy cadence plus idle time over the idle cadence, independent of how the day was cut |
| Planner.IntervalOnly | src/predictor/services/quota.py:543-556 | The search ends on the least interval of at least 300 s that fits the call budget, clipped at the ceiling; no shorter one fits |
| Planner.FitsIffLongEnough | src/predictor/services/quota.py:543-556 | An interval fits a call budget exactly when it is at least the rounded-up quotient of match time and budget |
| Planner.TiersAreOrderedAndAffordable | src/predictor/services/quota.py:504-540 | For every input the urgent interval is at most the relaxed one, both within 300 s and the ceiling, and the calls claimed never pass the budget |
| Planner.RealisableIffTwoBodyCalls | src/predictor/services/quota.py:504-540 | With both tiers below the ceiling, the calls the intervals really imply fit the budget if and only if at least two body calls are left |
| Planner.OneBodyCallIsPromisedTwice | src/predictor/services/quota.py:504-540 | A plan with one call whose two intervals imply two |
| Planner.ClaimsWhatItImplies | src/predictor/services/quota.py:504-540 | Below the ceiling the detail calls a plan claims are those its intervals imply, cut at the budget |
| Planner.NoFasterTierFits | src/predictor/services/quota.py:504-540 | The urgent quarter stays at full speed while its calls fit, else it gets half of the calls; no shorter interval of either tier would fit |
| Planner.QualityWithinUsable | src/predictor/services/quota.py:416-501 | Every branch of the fit keeps scores, detail, odds and one-shots together within what is usable |
| Planner.ReserveWithinUsable | src/predictor/services/quota.py:125-242 | In every branch the plan reserves at most what lies above the safety buffer |
| Planner.OverloadedIffFullSpeedDoesNotFit | src/predictor/services/quota.py:416-501 | Past the stopped and stretched branches a plan is overloaded exactly when scores, full-speed detail and all odds do not fit |
| Planner.NotOverloadedMeansFullSpeed | src/predictor/services/quota.py:416-501 | A plan that is not overloaded runs detail at full speed and reserves the whole need |
| Planner.ScoresAreReservedPollByPoll | src/predictor/services/quota.py:125-242 | The score reserve is the polls of the day rounded up, one per target while something is in play and one in 300 seconds while not, cut at what is above the buffer |
| Planner.CadenceMakesTheReservedPolls | src/predictor/services/quota.py:125-242 | While the board stays as it is, polling every score interval until midnight makes exactly the polls reserved, stretched or not |
| Planner.ScorePollFollowsTheBoard | src/predictor/services/quota.py:198-212 | While the polls fit, a live board is polled every target seconds and an empty one every 300 |
| Planner.StarvedPlanOnlyPollsScores | src/predictor/services/quota.py:182-209 | With nothing above the buffer, or less than the scores need, no detail, odds or context call is left and nothing else is due before midnight |
| Planner.OneshotsAreTheMostThatFit | src/predictor/services/quota.py:416-484 | A plan with odds takes the largest of the three one-shot levels whose reserve still fits |
| Planner.OddsUseTheirReserve | src/predictor/services/quota.py:222-242 | Odds are polled exactly on a live board with odds reserved, at the cadence that uses that reserve up |
| Planner.FullSpeedDetail | src/predictor/services/quota.py:559-563 | Without overload the detail reserve is one call per 300 seconds of match time, rounded up, and one per finishing match |
| Planner.ContextMakesTheImpliedDetail | src/predictor/services/quota.py:362-413 | Below its cap, the context rate over the ticks of any span makes the detail calls both tiers imply for it, and on top the closing fetches and one-shots of each tick |
| Planner.TicksFitAMinute | src/predictor/services/quota.py:362-413 | A minute has room for exactly the score polls and context calls of its ticks |
| Planner.BufferIsThePercentage | src/predictor/services/quota.py:118-122 | The buffer is the least whole number of calls not below its percentage of the limit |
| Planner.BareCountKicksOffNow | src/predictor/services/quota.py:566-578 | A bare count of matches left is in play from now on for the length of a match, and a forecast takes precedence |
| Planner.AllowedIffStrongerLanesKeepTheirs | src/predictor/services/quota.py:296-312 | A slot runs exactly when its lane is open and one more call still leaves the buffer and all that the stronger lanes have reserved |
| Planner.PlanLiveBudget | src/predictor/services/quota.py:125-242 | The plan is the planner's answer to the demand counted instant by instant, never reserves more than is above the buffer, and its cadences are ordered |
| Drip.AllowanceWithinSurplus | src/predictor/services/quota.py:274-293 | An allowance is never negative, never above the surplus or the ceiling, and at least one call while there is any surplus and time |
| Drip.DripLeavesOnlyTheCappedPart | src/predictor/services/quota.py:274-293 | If every window spends its allowance, what midnight finds is exactly the surplus the windows could not take at the ceiling: zero without one |
| Drip.CapStrandsCalls | src/predictor/services/quota.py:274-293 | An input for which a ceiling leaves calls unspent at midnight |
| Drip.AllowancesNeverIncrease | src/predictor/services/quota.py:274-293 | Spending an allowance in full never makes the next one larger |
| Drip.AllowancesFallThroughTheDay | src/predictor/services/quota.py:274-293 | Over all the windows of a day, each spent in full, no allowance is larger than an earlier one |
| RateWindow.RoomIsExact | src/predictor/client/football.py:146-155 | If history room is k then exactly k more calls pass at that instant and the next is refused |
| RateWindow.SentIffLimitsHoldWithIt | src/predictor/client/football.py:235-285 | A send goes out exactly when deadline, ceiling and both minute limits still hold with it counted, and always without a window |
| RateWindow.LanesShareTheMinute | src/predictor/client/football.py:146-179 | Live and history calls of any stretch add up to all calls of it |
| RateWindow.KeptCountsAll | src/predictor/client/football.py:175-179 | The marks left after pruning count exactly what the complete call log would count |
| RateWindow.RunIsDisciplined | src/predictor/client/football.py:235-285 | After any run with a non-decreasing clock the log is ordered and every history call was within its minute |
| RateWindow.AnyMinuteIsBounded | src/predictor/client/football.py:235-285 | Over any run, retries and reopened windows included, every 60-second interval holds at most the largest window's history calls |
| RateWindow.FootballClient.HistoryRoom | src/predictor/client/football.py:146-155 | The three deques give the room of the complete log: ceiling, minute and vendor limit, zero after the deadline, none without a window |
| RateWindow.FootballClient.HistoryMinuteFull | src/predictor/client/football.py:157-165 | True exactly when the full log has the minute's history calls or the vendor's calls used up |
| RateWindow.FootballClient.LiveMinuteFull | src/predictor/client/football.py:167-170 | True exactly when the full log has the minute's live calls or the vendor's calls used up |
| RateWindow.FootballClient.RefuseClosedWindow | src/predictor/client/football.py:275-285 | Refuses exactly past the deadline, at the ceiling, or at either minute limit of the full log |
| RateWindow.FootballClient.NoteCall | src/predictor/client/football.py:266-273 | A call is counted once and appended to the lane that is open, and nothing else changes |
| RateWindow.FootballClient.SendOnce | src/predictor/client/football.py:235-264 | One send is one step of the log: refused without trace or counted before it goes out |
| HistorySpend.Scheduler.RunSlot | src/predictor/services/scheduler.py:310-354 | A handler runs if and only if deadline, allowance, minute, vendor and quota all allow it, its sends are then made one by one, and the pass is told to end exactly when history must stop or the handler says so; history runs only with a call above buffer and full reserve |
| HistorySpend.Scheduler.OneHistoryPass | src/predictor/services/scheduler.py:310-354 | A pass visits the priorities in order, runs exactly the admitted ones, passes over only a forward sync already done, and stops at the first visit that ends it and at no other; it never passes the ceiling or makes a live call, and reports whether it made one |
| HistorySpend.ForwardAtMostOnce | src/predictor/services/scheduler.py:310-354 | In a pass the forward sync runs at most once, and not at all once it is done |
| HistorySpend.Scheduler.YieldScoreTick | src/predictor/services/scheduler.py:291-308 | A score tick makes its sends with the window closed and leaves the history spent on the baseline unchanged |
| HistorySpend.Scheduler.SpendHistory | src/predictor/services/scheduler.py:214-289 | However many score ticks interleave, one spend makes at most its allowance of history calls, and remaining falls below buffer plus full reserve only by live calls; it goes on with its passes and ends before its script only because a tick said so, the allowance is used up, the minute is full, or a pass made no call or met the end of the quota |
| HistorySpend.LanesShareTheVendorMinute | src/predictor/constants.py:131-150 | The two minute budgets add up to 450 on every board, and from 50 live matches on history gives way |
| Credit.ContextCredit.Draw | src/predictor/services/quota.py:315-323 | A draw adds the rate up to three ticks' worth and hands out the whole calls |
| Credit.ContextCredit.Refund | src/predictor/services/quota.py:326-331 | Unused calls return to the balance up to the cap |
| Credit.ContextCredit.Allowance | src/predictor/services/quota.py:334-339 | A draw limited by the room gives the part above the room back |
| Credit.GrantIsTheMostItCanBe | src/predictor/services/quota.py:315-339 | A draw grants the most whole calls that the filled bucket and the room allow and leaves the rest in it |
| Credit.TickIsSound | src/predictor/services/quota.py:315-339 | One tick grants within its room, keeps the balance non-negative and capped, and creates no credit |
| Credit.BucketIsSound | src/predictor/services/quota.py:315-339 | Over any run of rates, rooms and reported calls, those never exceed the first balance plus all rates |
| Credit.SteadyGrantIsExact | src/predictor/services/quota.py:315-323 | At a fixed rate of at least one half, n ticks grant exactly floor(start + n * rate) calls |
| Credit.GrantsIffThirdOfACall | src/predictor/services/quota.py:315-323 | At a fixed positive rate a call is ever granted if and only if three ticks' rate makes a whole call |
| LiveContext.RefreshDetails | src/predictor/services/ingest/live_context.py:391-458 | Batches never pass the limit, the cap or what may run at once, the fixtures tried are the due ones of a prefix of the service order, and the lane stops only when closed, used up or at its end; without failures it fetches everything due up to limit and cap |
| LiveContext.CursorMoves | src/predictor/services/ingest/live_context.py:455-458 | The detail cursor stays inside the list and moves on after every live refresh short of a full round |
| LiveContext.CursorGoesRound | src/predictor/services/ingest/live_context.py:455-458 | Over any refreshes the cursor has moved round the list by all they fetched, at least one place each |
| LiveContext.Drain | src/predictor/services/ingest/live_context.py:343-389 | One-shot probes spend one call each that used HTTP, within the limit and the cap, and stop only when closed, used up or out of tasks |
| LiveContext.Refresh | src/predictor/services/ingest/live_context.py:51-310 | A refresh reports the sum of its three lanes, each within its own limit and never more than its cap; undisturbed it makes exactly the calls due, live detail first, then closing detail, then one-shots |
| LiveContext.ContextSlot | src/predictor/services/scheduler.py:477-504 | Drawing the cap, refreshing and refunding what was not reported is exactly one tick of the bucket; the refund is never negative, the calls counted stay within the cap and leave the buffer and a score call, even when the refresh raises |
| LiveContext.RaisingIsFree | src/predictor/services/scheduler.py:488-504 | A refresh that raises gives back the credit of the calls it made, up to the cap of the bucket |
| LiveContext.SlotPaysIff | src/predictor/services/scheduler.py:488-504 | A slot pays for its calls out of what the bucket held and gained exactly when its refresh did not raise or made no more calls than the cap cut off |
| LiveContext.CallsBoundedButForRaises | src/predictor/services/scheduler.py:477-504 | Over any run of slots the calls counted never exceed the first balance and all rates by more than what raising refreshes made |
| LiveContext.CallsBoundedWithoutRaises | src/predictor/services/scheduler.py:477-504 | While no refresh raises, the bucket bounds the calls counted |
| LiveContext.RaisingBreaksTheBound | src/predictor/services/scheduler.py:477-504 | Three slots at rate 1 from an empty bucket that make six calls for three credits |
| Domain.PreviewCommutesWithSettlement | src/predictor/services/advisor/domain.py:385-398 | The live coupon state, read as a verdict, is the settlement of the legs read as verdicts |
| Domain.VerdictIgnoresOrder | src/predictor/services/advisor/domain.py:317-330 | Neither the settlement nor the preview of a coupon depends on the order of its legs |
| Domain.LostIsFinal | src/predictor/services/advisor/domain.py:317-330 | A lost coupon stays lost whatever its other legs become |
| Domain.WonExactly | src/predictor/services/advisor/domain.py:317-330 | A coupon wins if and only if some leg won and every leg won or was void |
| Domain.VerdictIsTheGravestLeg | src/predictor/services/advisor/domain.py:317-330 | A coupon is worth its gravest leg: lost over manual over pending over won over void |
| Domain.LegSettlesExactly | src/predictor/services/advisor/domain.py:300-314 | The exact scores that settle a leg as won, lost, void or manual, by the goals of its own period |
| Domain.InPlayPreview | src/predictor/services/advisor/domain.py:333-382 | In play a leg is a hit exactly from the goal that passes its line; extra time counts its own goals |
| Domain.InterruptionChangesNothing | src/predictor/services/advisor/domain.py:333-382 | An interrupted match is previewed as it was before |
| Domain.EndedPeriodPreview | src/predictor/services/advisor/domain.py:333-382 | A period that is over is judged by its own score, whatever the board adds |
| Domain.FinishedPreviewAgreesIffComplete | src/predictor/services/advisor/domain.py:300-382 | On a finished, refreshed match a leg is a hit exactly when it settles won, and preview and ledger agree exactly when the period's score is complete |
| Domain.CombineOdds | src/predictor/services/advisor/domain.py:277-285 | The product of the odds rounded to thousandths, or an error for no odds or one not above 1 |
| Domain.CombinedIsNearest | src/predictor/services/advisor/domain.py:277-285 | The combined odd is the exact product to the nearest thousandth, and missing exactly without odds or with one not above 1 |
| Domain.CombinedAboveOne | src/predictor/services/advisor/domain.py:277-285 | A combined odd is always above 1 after rounding |
| Domain.CombinedIgnoresOrder | src/predictor/services/advisor/domain.py:277-285 | The combined odd is the same for every order of the rows |
| Domain.PnlAtLeastStake | src/predictor/services/advisor/domain.py:413-427 | A settled coupon can lose its stake and nothing more |
| Domain.WonPaysTheKeptShare | src/predictor/services/advisor/domain.py:413-427 | A won coupon nets the kept share of stake times odd less the stake, to the nearest cent with halves away from zero; lost, void and open ones as they should |
| Gates.LlmLegIsBaselineLeg | src/predictor/services/advisor/candidates.py:63-144 | Every leg admitted for the model is the very leg the baseline would play |
| Gates.AdmittedExactly | src/predictor/services/advisor/candidates.py:63-144 | With the first row that prices the next goal on the score of the match: there is a leg exactly when minute, price, freshness, open coupons, rejected states and, for the model, status and prompt rules allow it, and it is the leg of that row |
| Gates.NoRowNoLeg | src/predictor/services/advisor/candidates.py:161-199 | Without a row that prices the next goal there is no leg |
| Gates.PromptGatesExactly | src/predictor/services/advisor/domain.py:253-274 | Each prompt rule is missed exactly when it says so: three goals or more, no favourite below 2.000, or under 1.450 after minute 60 of regulation |
| Gates.LoneCandidateExactly | src/predictor/services/advisor/candidates.py:147-158 | A single candidate goes to the model only in regulation at 1.800 and the floor or more; any other number always does |
| Gates.LlmPromptGaps | src/predictor/services/advisor/llm_note.py:109-178 | The explainer lists no gap if and only if the admitter returns a leg, and every single gap exactly when it applies |
| Gates.StatusGaps | src/predictor/services/advisor/llm_note.py:109-178 | The status and minute gaps are empty exactly when the admitter's status and minute gates pass |
| Gates.QuoteGaps | src/predictor/services/advisor/llm_note.py:109-178 | The quote gaps are empty exactly when the admitter's quote and prompt gates pass |
| Gates.Ready | src/predictor/services/advisor/llm_note.py:286-335 | The matches shown as ready are rebuilt from the ones without a gap, in board order |
| Gates.RebuiltIsTheLeg | src/predictor/services/advisor/llm_note.py:338-380 | The candidate rebuilt from a gap-free match is the leg the tick would send |
| Gates.ApplyLoneWeak | src/predictor/services/advisor/llm_note.py:338-380 | After the lone rule a match is free of gaps exactly when it is in the set the tick sends to the model |
| Settle.SecondPassIsSilent | src/predictor/services/advisor/settle.py:50-95 | Settling again with the same clock and fixtures changes no field and writes no event |
| Settle.TouchedCouponAgreesWithLegs | src/predictor/services/advisor/settle.py:139-173 | A touched coupon with decisive legs ends as its legs settle, priced by the odds of exactly the legs that won in any order, with one verdict row if anything changed; otherwise only its legs change |
| Settle.VoidOddNeverPays | src/predictor/services/advisor/settle.py:139-173 | Whatever odd a void leg carries, the coupon settles with the same status at the same price |
| Settle.LegIsRewrittenIff | src/predictor/services/advisor/settle.py:63-90 | A pass rewrites a leg exactly when its match says something terminal and new and the leg is open or the kickoff at most 24 hours ago; it then logs the change |
| Settle.UnfinishedGoesManualAfterADay | src/predictor/services/advisor/settle.py:111-136 | A leg on a match that never finished goes to an operator from 24 hours after kickoff on, not before |
| Settle.FinishedSettlesByPeriod | src/predictor/services/advisor/settle.py:63-90 | A finished, refreshed match settles a leg by the goals of its own period, and waits for an operator without them |
| Settle.VerdictIsFinalAfterWindow | src/predictor/services/advisor/settle.py:63-90 | Once a match's correction window has closed, a settled leg keeps its verdict and its log through every sequence of later passes |
| Settle.SettlePreservesOk | src/predictor/services/advisor/settle.py:50-173 | A pass keeps the coupon invariant: legs and coupon still replay from their events |
| Settle.HandVerdictSurvivesIff | src/predictor/services/advisor/recommend_ops.py:359-377 | An operator's verdict survives a pass exactly when the pass has nothing different and terminal to say or the window has closed |
| Settle.HandSettledRowStaysIff | src/predictor/services/advisor/recommend_ops.py:359-377 | For every coupon in play whose legs were made decisive by hand: its row disagrees with its legs, and a pass leaves the row as it is exactly when it touches no leg or takes the decision back |
| Settle.HandSettlePreservesOk | src/predictor/services/advisor/recommend_ops.py:359-377 | A verdict by hand keeps the coupon invariant and its event replay |
| Settle.HandSettledIff | src/predictor/services/advisor/recommend_ops.py:359-377 | Only a manual leg takes a verdict by hand, one of the three that settle, and nothing else of the coupon moves |
| Settle.HandSettleLeavesCouponAndMayBeUndone | src/predictor/services/advisor/recommend_ops.py:359-377 | An example of both: a coupon whose last leg is won by hand stays open, and a pass over an incomplete score turns the leg back to manual |
| RecommendOps.BornOk | src/predictor/services/advisor/recommend_ops.py:189-267 | A new coupon is priced by the product of its legs and starts its event history |
| RecommendOps.MovedIff | src/predictor/services/advisor/recommend_ops.py:427-446 | A change of status writes one event and touches nothing else; a repeated one writes none, except that a coupon is proposed |
| RecommendOps.BornIff | src/predictor/services/advisor/recommend_ops.py:189-267 | A slip becomes a coupon exactly when it has a leg and every odd is above 1; stake, times and legs are the ones given |
| RecommendOps.AcceptedIff | src/predictor/services/advisor/recommend_ops.py:55-61 | Exactly a proposal in time can be accepted; a late live coupon expires and frees its matches, anything else stays as it was |
| RecommendOps.RejectedIff | src/predictor/services/advisor/recommend_ops.py:64-75 | Exactly a live coupon in time can be rejected, and frees its matches |
| RecommendOps.NotPlacedIff | src/predictor/services/advisor/recommend_ops.py:78-83 | Exactly an accepted or corrected coupon can be reported as not placed, however late |
| RecommendOps.ModifiedIff | src/predictor/services/advisor/recommend_ops.py:86-133 | A correction goes through exactly with a stake, in time, with an odd above 1 for every leg that stays and a leg that stays; the legs carry the given odds, the price is their product, the first stake is kept |
| RecommendOps.PlacedIff | src/predictor/services/advisor/recommend_ops.py:136-158 | A coupon is placed exactly when accepted or corrected, in time, and every leg still on it stands on the board at its proposed goals in its proposed period; else it expires |
| RecommendOps.DueIff | src/predictor/services/advisor/recommend_ops.py:161-186 | The sweep takes exactly the live recommendations whose time is over or whose board moved on |
| RecommendOps.WithdrawnIff | src/predictor/services/advisor/recommend_ops.py:307-339 | A withdrawal takes exactly the live recommendations |
| RecommendOps.ClosingKeepsOk | src/predictor/services/advisor/recommend_ops.py:486-526 | Closing a live coupon takes every leg off it and records the move |
| RecommendOps.ModifyKeepsOk | src/predictor/services/advisor/recommend_ops.py:86-133 | Correcting stake, odds or legs keeps at least one leg and a combined odd equal to the product of those kept |
| RecommendOps.ModifyRefusesOnlyWhenEmpty | src/predictor/services/advisor/recommend_ops.py:86-133 | With every kept odd above 1, pricing the corrected coupon cannot fail |
| RecommendOps.ActKeepsOk | src/predictor/services/advisor/recommend_ops.py:55-186 | Each operator action, expiry, withdrawal and settlement keeps the coupon invariant |
| RecommendOps.EveryLifeIsOk | src/predictor/services/advisor/recommend_ops.py:55-267 | After any run of actions and passes: closed coupons have only removed legs, others keep one, the odd before settlement is the product of the legs kept, and the events replay to the status |
| RecommendOps.ClosedIsFinal | src/predictor/services/advisor/recommend_ops.py:427-550 | A rejected, expired or unplaced coupon is never changed again |
| RecommendOps.InPlayUntilAPassCloses | src/predictor/services/advisor/settle.py:139-173 | Over every run a coupon in play keeps its row exactly until a pass touches one of its legs and leaves them decisive; from then on it is settled for good |
| RecommendOps.SettlesOnlyFromPlay | src/predictor/services/advisor/settle.py:50-95 | Only a placed or open coupon settles, and no operator action moves a settled one |
| RecommendOps.HandSettledWaitsForAPass | src/predictor/services/advisor/recommend_ops.py:359-377 | A coupon settled by hand keeps its row through every run of actions and passes exactly while no pass closes it |
| Ledger.Ledger.Move | src/predictor/services/advisor/recommend_ops.py:427-446 | A status change writes one event, and a repeated status other than proposed writes none |
| Ledger.Ledger.ReleaseLegs | src/predictor/services/advisor/recommend_ops.py:523-526 | Exactly the open legs become removed |
| Ledger.Ledger.LockLive | src/predictor/services/advisor/recommend_ops.py:471-483 | The shared check refuses a coupon of the other book, an expired one and one past its time, in that order, and expires a live coupon that outlived its time |
| Ledger.Ledger.AcceptCoupon | src/predictor/services/advisor/recommend_ops.py:55-61 | One coupon changes as accepting it should, the rest of the ledger stays |
| Ledger.Ledger.RejectCoupon | src/predictor/services/advisor/recommend_ops.py:64-75 | One coupon changes as rejecting it should, the rest of the ledger stays |
| Ledger.Ledger.NotPlacedCoupon | src/predictor/services/advisor/recommend_ops.py:78-83 | One coupon changes as not placing it should, the rest of the ledger stays |
| Ledger.Ledger.PriceChanges | src/predictor/services/advisor/recommend_ops.py:101-119 | The pass over the legs finds a badly priced one if there is any, else the corrected legs and the odds that remain |
| Ledger.Ledger.ModifyCoupon | src/predictor/services/advisor/recommend_ops.py:86-133 | One coupon changes as correcting it should, a stake with fractions of a cent is refused, and the caller learns whether the coupon is under the floor |
| Ledger.Ledger.AnyScoreChanged | src/predictor/services/advisor/recommend_ops.py:540-550 | True exactly when some leg still on the coupon does not stand at its proposed goals in its proposed period |
| Ledger.Ledger.PlaceCoupon | src/predictor/services/advisor/recommend_ops.py:136-158 | One coupon is placed exactly when it is confirmable, in time and every leg still on it stands on the board as proposed; otherwise it expires when time or score moved on |
| Ledger.PlayedWasPlacedAtItsScore | src/predictor/services/advisor/recommend_ops.py:136-158 | Over every run a recommendation in play or settled was placed by a step that found it confirmable, in time, and each leg it had at its proposed score |
| Ledger.Ledger.ExpireAllDue | src/predictor/services/advisor/recommend_ops.py:161-186 | Every due recommendation expires, no other coupon changes, and the count is the number of coupons changed |
| Ledger.Ledger.WithdrawAll | src/predictor/services/advisor/recommend_ops.py:307-339 | Exactly the live recommendations of the withdrawn strategy expire |
| Ledger.Ledger.PlaceProposed | src/predictor/services/advisor/recommend_ops.py:189-267 | Slips are stored in turn, each skipped if a match of it is taken by then; a bad odd or a match named twice undoes the whole call |
| Coupons.InsertLegs | src/predictor/services/advisor/recommend_ops.py:216-240 | A new coupon meets the constraints leg by leg: the first repeated match raises, the first taken one skips it |
| Coupons.TakenIff | src/predictor/services/advisor/recommend_ops.py:216-240 | A match is taken exactly while a coupon of the same book has a leg on it that is open or waits for an operator |
| Coupons.StoredIff | src/predictor/services/advisor/recommend_ops.py:216-240 | A coupon is stored exactly when it names no match twice and none of its matches is taken |
| Coupons.EnteredKeepsOneHolder | src/predictor/services/advisor/recommend_ops.py:189-267 | A stored coupon shares no held match with another coupon or within itself |
| Ledger.Ledger.SettleFinished | src/predictor/services/advisor/settle.py:50-95 | Whatever the order of leg rows and of touched coupons, every coupon ends as the pass settles it alone, and the count is of the coupons whose verdict was rewritten; a pass whose legs would collide on a match is rolled back whole |
| Ledger.FlushPassesIff | src/predictor/services/advisor/settle.py:63-95 | A pass goes through exactly when no leg takes back a match that another leg holds afterwards or lets go of too late in the flush |
| Ledger.OneHolderIffNothingShared | src/predictor/services/advisor/settle.py:63-90 | A pass keeps one holder per match exactly when no leg takes back a match another then holds |
| Ledger.ClaimIsAManualCorrection | src/predictor/services/advisor/settle.py:63-90 | A leg takes back its match only when a verdict is corrected to manual inside its window |
| Ledger.VoidAndPlacedCollide | src/predictor/services/advisor/settle.py:63-90 | Whenever a void leg and an open one stand on a match that is reported finished without a score inside its window, the pass is rolled back |
| Ledger.ManualCorrectionCanCollide | src/predictor/services/advisor/settle.py:63-90 | A run from the empty ledger, by proposing, accepting, placing and one pass, to a ledger in order whose next pass is rolled back |
| Ledger.RowsThenRefreshIsThePass | src/predictor/services/advisor/settle.py:50-95 | Row by row in any order and then refreshing the touched coupons is the coupon-by-coupon pass |
| Ledger.TouchedIffChanged | src/predictor/services/advisor/settle.py:63-90 | A coupon is touched exactly when the rows changed one of its legs |
| Ledger.SecondPassOverTheLedger | src/predictor/services/advisor/settle.py:50-95 | A second pass leaves the whole ledger as it is and counts nothing |
| Ledger.EveryLedgerIsOk | src/predictor/services/advisor/recommend_ops.py:55-377 | Every ledger any run of proposals, bets, operator actions, expiries, withdrawals, hand verdicts and passes can reach has only coupons in order and no match held twice |
| Ledger.Ledger.ManualSettle | src/predictor/services/advisor/recommend_ops.py:359-377 | Only a manual leg takes a verdict by hand; the coupon row is not refreshed |
| Sandbox.PortfolioBalance | src/predictor/services/advisor/sandbox.py:114-135 | The loop returns the bankroll plus every coupon's effect |
| Sandbox.RowEffectExactly | src/predictor/services/advisor/sandbox.py:114-135 | An open or lost coupon took its stake, a won one nets 88 percent of stake times odd less the stake to the nearest cent, any other took nothing |
| Sandbox.StakeGrowsWithWins | src/predictor/services/advisor/sandbox.py:254-267 | The next stake is 21.00 and ten cents for every coupon that stands as won |
| Sandbox.PlacementsAreBought | src/predictor/services/advisor/sandbox.py:219-240 | The balance kept by subtraction in the loop is the balance of the rows, and placement changes no win count |
| Sandbox.MoneyOnlyTruncates | src/predictor/services/advisor/sandbox.py:219-240 | Money decides only how many slips are placed: while every slip can be stored, the book is the unlimited one cut after as many coupons as the balance affords |
| Sandbox.RaisesIffMoneyReachesIt | src/predictor/services/advisor/sandbox.py:219-240 | A slip that raises undoes the placement exactly when the balance affords every coupon before it and one more; otherwise the book is cut as ever |
| Sandbox.PlacementStaysSolvent | src/predictor/services/advisor/sandbox.py:219-240 | A placement never takes a non-negative balance below zero |
| Sandbox.ActiveAfterDeliveryCovers | src/predictor/services/advisor/sandbox.py:188-240 | A strategy given slips stays active exactly when its book still covers the stake, else it is paused |
| Sandbox.InactiveBuysNothing | src/predictor/services/advisor/sandbox.py:215-216 | A strategy that is neither in the sandbox nor promoted is given nothing |
| Sandbox.ReleasedIff | src/predictor/services/advisor/sandbox.py:142-155 | A release returns exactly the paused strategies whose book covers the next stake |
| Sandbox.FirstSettlementNeverCosts | src/predictor/services/advisor/settle.py:139-173 | Settling an open coupon never lowers what it has done to the bankroll |
| Sandbox.HandSettledKeepsStakeSpent | src/predictor/services/advisor/sandbox.py:114-135 | Meanwhile its whole stake stays deducted from the bankroll, whatever the operator decided |
| Sandbox.PassNeverCosts | src/predictor/services/advisor/settle.py:50-95 | A pass without a losing correction never lowers the balance |
| Sandbox.LosesMoneyIff | src/predictor/services/advisor/settle.py:139-173 | The only status changes by which a pass can lose money: a win corrected to a loss, to a void or to a smaller win, a void corrected to a loss or to a win below the stake |
| Sandbox.PassMovesBalance | src/predictor/services/advisor/settle.py:50-95 | A pass moves the balance by exactly what its coupons gain and lose |
| Sandbox.SolventIffCovered | src/predictor/services/advisor/sandbox.py:114-240 | Over every run, corrections included, the balance is never negative at any moment exactly when every pass covers what its corrections take back |
| Sandbox.EveryRunIsSolvent | src/predictor/services/advisor/sandbox.py:114-240 | Over any run of placements, releases, operator moves, hand verdicts, first settlements and corrections that pay the balance is never negative |
| Sandbox.CorrectionOverdrawsIff | src/predictor/services/advisor/settle.py:139-173 | A pass overdraws the book exactly when its losses are more than the balance and its gains |
| Sandbox.CorrectionCanOverdraw | src/predictor/services/advisor/settle.py:139-173 | A run of the program from the empty book to minus 10.00, by a void coupon corrected to lost |
| Sandbox.Portfolio.PlaceSandboxCoupons | src/predictor/services/advisor/sandbox.py:188-240 | The method's new book and status are the placement's, with consecutive coupon ids, and nothing is left behind when pricing raises |
| Sandbox.Portfolio.ReleaseIfFunded | src/predictor/services/advisor/sandbox.py:142-155 | A paused strategy returns exactly when its book covers the next stake |
| Report.ChartPoints | src/predictor/services/advisor/report.py:300-372 | The running loop gives each shown coupon the balance and the rounded hit rate of the coupons up to it |
| Report.ChartEndsAtTheBalance | src/predictor/services/advisor/report.py:242-372 | For every order of the rows and every mix of statuses and missing odds, the chart's last saldo is the book's balance |
| Report.PointsExplainTheBalance | src/predictor/services/advisor/report.py:242-372 | The results on the points, with the stakes still out, make up the balance of the book |
| Report.NextPointIs | src/predictor/services/advisor/report.py:312-372 | One more coupon of any status moves the saldo by what it won, lost or holds; a win never lowers the hit rate and a loss never raises it |
| Report.ReportShowsTheBankroll | src/predictor/services/advisor/report.py:259-270 | On priced coupons the reported balance is the one placement spends from |
| Report.BalanceReconciles | src/predictor/services/advisor/report.py:242-285 | The balance is the bankroll plus the net result, less open stakes and lost stakes without an odd |
| Report.HitRatesAgreeIff | src/predictor/services/advisor/report.py:242-372 | The chart's and the book's rounded rates agree exactly when lost coupons without an odd do not move the rate across a rounding boundary |
| Report.ExactRatesAgreeIff | src/predictor/services/advisor/report.py:242-372 | Before rounding the rates agree exactly when there is no such coupon or nothing was won |
| Report.BareLossMayShow | src/predictor/services/advisor/report.py:242-372 | Inputs for which such a coupon shows in the rounded rate and for which it does not |
| Drawdown.LargestDrop | src/predictor/services/advisor/recommend.py:123-137 | The one pass finds the largest fall between any two points of the equity curve, and that fall occurs |
| Drawdown.MaxDrawdown | src/predictor/services/advisor/recommend.py:123-139 | The result is the one largest fall over the bankroll, rounded half up to four places, and 0 for no bankroll |
| Drawdown.RatioIsNearest | src/predictor/services/advisor/recommend.py:123-139 | The ratio is the fall over the bankroll to the nearest ten-thousandth, halves up |
| Drawdown.WorstIgnoresBankroll | src/predictor/services/advisor/recommend.py:123-139 | The largest fall is the same from any starting bankroll, which only the division sees |
| Debounce.ReadyIffUnchangedForAWait | src/predictor/services/advisor/tick.py:108-145 | The model is called if and only if the non-empty set is the only one seen, unsent, since an event at least a full wait ago |
| Debounce.StartsObeyTheRule | src/predictor/services/advisor/tick.py:108-154 | The same holds from the fresh window and from every restored one |
| Debounce.RestoredSentWaitsForChange | src/predictor/services/advisor/tick.py:393-397 | A set restored as sent is never sent again by looking at it |
| Debounce.RestoredOpenWaitsFromFirstLook | src/predictor/services/advisor/tick.py:393-397 | A set restored open is due a full wait after it is first seen again |
| Debounce.AfterSendingOnlyChangeOrHold | src/predictor/services/advisor/tick.py:134-145 | After a set was sent the model is called again only a full wait after the set changed or was held for retry |
| Debounce.SleepWakesOnTime | src/predictor/services/advisor/tick.py:147-154 | The sleep is positive, never longer than the poll, ends with the waiting set due exactly when that falls within the poll, and is cut short only for that |
| Debounce.CandidateWindow.Ready | src/predictor/services/advisor/tick.py:116-132 | The fields and the answer change as one look at the set |
| Debounce.CandidateWindow.HoldForRetry | src/predictor/services/advisor/tick.py:138-145 | After a hold the same set is due exactly a full wait later, and the window moves as the run model says |
| Debounce.CandidateWindow.MarkFired | src/predictor/services/advisor/tick.py:134-136 | After a set was sent no look at it is due, at any time |
| CycleProtocol.EstimateCoversReservedUse | src/predictor/services/advisor/budget.py:15-47 | A call within its reserved tokens never costs more than its estimate, at any prices |
| CycleProtocol.CallCostIsNearest | src/predictor/services/advisor/budget.py:15-28 | A call costs its tokens at their prices, thoughts as output, to the nearest ten-thousandth |
| CycleProtocol.EstimateIsForTheWholePrompt | src/predictor/services/advisor/budget.py:31-47 | The estimate is the price of 2048 tokens out and one in for every four characters, at least one |
| CycleProtocol.SandboxCapIsSevenTenths | src/predictor/services/advisor/budget.py:50-55 | The sandbox may use seven tenths of the limit, recommendations all of it |
| CycleProtocol.OneCallerAtATime | src/predictor/services/lock.py:112-123 | At most one caller is between acquiring and releasing |
| CycleProtocol.LockIsNeverOrphaned | src/predictor/services/lock.py:112-123 | In every reachable state the lock is held exactly by the caller inside, so with nobody inside anybody may enter |
| CycleProtocol.EveryRunIsSafe | src/predictor/services/advisor/cycle.py:135-208 | In every reachable state, with callers and unlocked summaries in any interleaving, every row was within its cap by the sum it was checked against, and only summaries were stored between a cycle's reading and its commit |
| CycleProtocol.DayStaysUnderCapAndOneExcess | src/predictor/services/advisor/cycle.py:150-262 | For any interleaving and crashes of any number of cycle callers, a day's committed cost is at most the cap of one of its calls plus that call's excess over its estimate |
| CycleProtocol.DayWithSummaries | src/predictor/advisor/main.py:192-254 | With summaries in the run, a day costs at most the cap of its last call, its excess and what overtook it; without the last term exactly when a fresh reading would still have allowed the call |
| CycleProtocol.DayWithinLimit | src/predictor/services/advisor/cycle.py:150-262 | When no call costs more than its estimate, no day costs more than the limit |
| CycleProtocol.SandboxLeavesItsShare | src/predictor/services/advisor/budget.py:50-65 | No sandbox call starts when the sum it read and its estimate pass the 70 percent share; what is spent by then passes it at most by the summaries that overtook the reading, and by nothing without summaries |
| CycleProtocol.PaidIsAccountedFor | src/predictor/services/advisor/cycle.py:177-262 | What cycles paid on a day is in the sum of the day, in flight with the lock holder, or lost with a caller that died |
| CycleProtocol.CallIsBilledOnCommit | src/predictor/services/advisor/cycle.py:177-262 | A cleared caller adds to its day, when it commits, the cost of a completed call or its whole estimate when the provider failed, whatever others do in between |
| CycleProtocol.FailedSummaryIsFree | src/predictor/advisor/main.py:192-254 | A summary whose provider fails is billed nowhere |
| CycleProtocol.SummaryIsBilledOnItsDay | src/predictor/advisor/main.py:192-254 | A summary is billed once, on the day its row is stored |
| CycleProtocol.SpentFromAddsLaterDays | src/predictor/advisor/main.py:192-254 | The sum a summary reads is that of its day and of everything dated later |
| CycleProtocol.LosesIffEndedOrRefused | src/predictor/advisor/main.py:236-255 | A run has lost a paid call exactly when in it somebody ended between a call and its commit, or the row of a paid summary was refused |
| CycleProtocol.FloorRefusedIff | src/predictor/services/advisor/summary.py:28-35 | A validated odds floor is refused by the database exactly when it is below 1.0005, which thousandths round to 1, or the name is taken |
| CycleProtocol.RefusedSummaryLosesThePaidCost | src/predictor/advisor/main.py:236-255 | With a floor of 1.0004 a paid summary is in no sum, nobody has died, and its batch goes on with the old reading |
| CycleProtocol.CrashLosesThePaidCost | src/predictor/services/advisor/cycle.py:118-133 | A run after which a paid call is missing from the sum of the day |
| CycleProtocol.Cycles.SpentToday | src/predictor/services/advisor/cycle.py:95-105 | The loop returns the sum of the day's committed costs |
| CycleProtocol.Cycles.RunLocked | src/predictor/services/advisor/cycle.py:150-262 | The body under the lock is exactly the read, call and commit steps, adds the cost of a completed call or the estimate of a failed one to the day, and keeps every row within its cap |
| CycleProtocol.Summarize | src/predictor/advisor/main.py:192-254 | The jobs tried are those before the first one refused against a single reading of the sum |
| CycleProtocol.BatchKeepsTheCapIff | src/predictor/advisor/main.py:192-254 | For every batch: after its last stored job the day obeys the bound of a cycle exactly when a fresh reading before that job would still have allowed it |
| CycleProtocol.BatchStepsBill | src/predictor/advisor/main.py:192-254 | The unlocked steps of allowed jobs, undisturbed, add to the day exactly what the loop bills |
| CycleProtocol.OneSummaryObeysTheCap | src/predictor/advisor/main.py:192-254 | A batch of one job obeys the same bound as a cycle |
| CycleProtocol.TwoSummariesSpendTheLimitTwice | src/predictor/advisor/main.py:192-254 | At any limit the steps of two jobs with exact estimates spend it twice |

## Left out

- HTTP, retries with back-off, headers, redaction and `/status` probing: a call is an event with an arbitrary outcome.
- Database sessions, queries, migrations and the writer lock's own connection: tables are sequences, a transaction that raises restores them.
- A session lock that is dropped by its own connection while the caller goes on: the protocol's caller and its lock die together.
- Rounding of binary floats and Decimal's 28-digit context: arithmetic is exact up to the explicit roundings.
- Parsing of odds labels, timestamps, settings and periods; malformed settings never reach the model.
- RateWindow.FootballClient.SendOnce: what follows a send (quota headers, the authorisation block, retry classes) is not modelled.
- Ledger.Ledger.ModifyCoupon: odds are whole thousandths; an odd with more places is not.
- Ledger.Ledger.WithdrawAll: the yield test that decides a withdrawal and the strategy's own move are not modelled.
- Ledger.Ledger.SettleFinished: the later-goal records of rejected candidates, written in the same transaction, are not modelled.
- Sandbox.Portfolio.PlaceSandboxCoupons: unknown strategies, foreign versions and mismatched kinds, which raise before anything is read, are not modelled.
- HistorySpend.Scheduler.SpendHistory: a finite script stands for the run up to a stop; nothing is said about wall-clock progress of the outer loop.
- LiveContext.RefreshDetails: the service order that the cursor rotates is a script; an authorisation failure in a batch ends the refresh and is covered by `LiveContext.ContextSlot`.
- CycleProtocol.PaidIsAccountedFor: counts cycles; a summary's day is that of its row, so what a summary paid is stated by `CycleProtocol.BatchStepsBill`.
- `detail_service_order`, `deadline_order` and the baseline and reply slips: sorting and filtering, easier than what is here.
- Strategy promotion and launch, yields of paired strategies, operator bets, lineups, outboxes, Telegram, Langfuse and the user interface.
- `review_model_output`, prompt rendering and the selection of board matches: an arbitrary candidate list and an arbitrary verdict stand for them.
