# Harness client: verified model

A Dafny model of the coordination and projection code in `apps/harness/src`: the code that keeps the browser's view of
repositories and work items fresh, animates work items between pipeline lanes, measures their timings, cuts event
streams into frames, and plans what the page shows. The code that works by changing things in place is modelled by
classes and loops, each proved against a specification function; the properties are proved about the specifications,
for every input and, where there is a protocol, for every run.

Verify everything with `dafny verify dfyconfig.toml`.

## How the files are organised

| files | models |
|---|---|
| `MembershipFollower`, `MembershipCatchUp`, `MembershipTransport`, `MembershipTrace`, `MembershipTimes`, `MembershipFollowerObject` | the reconnecting subscription for repository membership: generations, single-flight catch-up, backoff, the grace warning |
| `RouteFlights`, `RouteFlightsColumns`, `RouteFlightsOrder`, `RouteFlightsRuns`, `RouteFlightsLives`, `RouteFlightsObject` | work items travelling between lanes: counts, greyed cards, arriving cards, phase timers, the life of a flight |
| `Debts`, `CommittedCounts`, `CommittedCountsProofs`, `OpenCounts`, `FullRefresh`, `WorkItemsFollower`, `WorkItemsRequests`, `WorkItemsFollowerObject` | the work-items follower: its three coalescers one by one, and together with its reconnect loop |
| `TimingStatistics`, `TimingTimes`, `TimingDecomposition`, `Percentiles` | attempt measurements, the times behind them, their decomposition by lane and step, the interpolated percentile |
| `EventFrames`, `SubscriptionEvents`, `RepositoryStream`, `EventStreamObjects` | framing of server-sent events, the two event parsers, the stale watch |
| `ThrottleBanner` | the deadline shown after GitHub throttles |
| `PipelineLanes`, `LifecycleChips`, `ArchiveLegs` | lanes, step chips and archive legs |
| `ImplementWithDraft`, `ImplementWithSession` | drafts, catalog pins and submissions of the Implement With dialog |
| `CiGateStory` | which CI run is told in which role |
| `Service` | when a request is served, by what the steps of a run do to the pass a loop has open |
| `Options`, `Sequences`, `Strings` | optional values, filters and stable sorting, string operations |

## How protocols are modelled

A protocol is a transition system. One step is the code that runs between two `await`s (or one timer or event
callback); the environment picks the next enabled step. Fetches succeed, fail or are cancelled as the environment
decides. Time is a whole number of milliseconds on one monotone clock; a timer fires no earlier than its delay and
possibly later (configured delays are taken to fit in 31 bits; only the throttle banner computes a delay from data, and
there the wrap-around is modelled). Histories that the proofs speak about (logs, seen text, considered deadlines) are kept in the state and
influence nothing; that no request is lost is stated without them, by the events of a run and the passes it has open. Assumptions:

- stream callbacks of an attempt run before that attempt settles, and it connects at most once
  (`apps/harness/src/repository-live.ts:129`); callbacks of older attempts may come at any time;
- callbacks handed to a follower (diagnostics, activity, warnings, banner) do not call back into it;
- the server places each work item in one lane and lists it once (`WellFormed`);
- a render and its layout effect are one step, and so are the reads of the clock in one stream slice.

## Findings

- **The retry loop can hand a scheduled refresh over.** `refresh-work-items-live.ts:181-185` promises to keep retrying
  count refreshes until one succeeds. The retry loop itself can end before its request is paid: `LetsGoIff` gives the
  exact condition, a promise that resolved while a direct caller has started a newer refresh that has not succeeded.
  No request is lost by it. There are two direct callers, the full-refresh loop (323-346) and the connection of the
  stream (`work-items-live.ts:63`), and both answer a failure with another refresh: `RetryLoopHandsOver` shows that one
  of them is in charge, `EveryRequestIsLookedAfter` that over every run of the whole follower somebody always is, and
  `PaidWithinFourSteps` that four of their steps are enough once fetches succeed. `HandOverHappens` is a run of the
  follower in which the hand-over happens: a count refresh succeeds, and before the continuation of the retry loop that
  awaited it come a change callback and the continuation of the full-refresh loop that awaited the same refresh. The
  model leaves the order of such queued continuations open; whether an engine ever queues them so is outside it.
- **A far deadline hides early.** A timer delay is a signed 32-bit number, so a throttle deadline 2^31 ms (about 25 days)
  or more ahead is hidden too soon, one 2^32 ms ahead at once (`HidesEarlyIff`, `FarDeadlineVanishes`).
  `BannerIsLatest` holds for all nearer deadlines.
- **The two streams end differently.** The repository stream ends on the event type `complete`, the issues stream on
  frames that begin with the text `event: complete`. `StopRulesAgreeIff` says when that matters for frames as a server
  writes them; `StopRulesDisagree` is a frame where it does.
- **A blank review model is dropped.** A catalog id of white space only passes the submit check as a review model but is
  submitted as none (`BlankReviewIsDropped`); `FromCatalog` carries the exact condition.
- **Unreachable code.** The recursive branch behind the committed-count loop (`refresh-work-items-live.ts:171-174`) and
  the reschedules in two of its `finally` blocks (257-259 and 341-343) and in that of the catch-up loop
  (`refresh-repositories-live.ts:312-314`) are never taken; the one at `refresh-work-items-live.ts:207-209` is needed.
- **The first wait is not capped.** The first failure waits the configured delay even when that exceeds 30 seconds; all
  later waits in a row are capped (`BackoffIsExponential`).

## Model

| member | source | states |
|---|---|---|
| MembershipFollower.RunPass | apps/harness/src/refresh-repositories-live.ts:258-316 | The loop from its head to the next await: it consumes the pending flag and opens one fetch for the current generation, or closes; it never touches transport. |
| MembershipFollower.ScheduleCatchUp | apps/harness/src/refresh-repositories-live.ts:240-318 | A request of an aborted or superseded attempt changes nothing; one that finds a live activation is left pending with it, and cancels its fetch exactly if that is of an older generation; any other starts an activation with one fetch for its generation open and nothing left pending. Transport, clock and retry delay stay. |
| MembershipCatchUp.RunKeepsCatchUp | apps/harness/src/refresh-repositories-live.ts:240-318 | Over every run: one live activation at most, generations in order, and every debt of the current generation covered by it. |
| MembershipCatchUp.HandleMeansOneLivePass | apps/harness/src/refresh-repositories-live.ts:245-257 | The in-flight handle is set exactly while one activation of the loop is alive, and there is never more than one, so at most one membership fetch is open. |
| MembershipCatchUp.HealthyHasAsked | apps/harness/src/refresh-repositories-live.ts:369-377 | Whenever transport is healthy, a catch-up of that generation has been asked for. |
| MembershipCatchUp.NoLostNotification | apps/harness/src/refresh-repositories-live.ts:240-318 | For every callback of the current attempt and every return to a visible tab, while its generation lasts unaborted: a membership fetch that started at or after that step has succeeded, or such a fetch is open, or the one live activation still owes one. Told by events and open fetches alone. |
| MembershipCatchUp.IdleMeansServed | apps/harness/src/refresh-repositories-live.ts:240-318 | Once the loop is idle, every such request of the generation has been served by a fetch that started no earlier and succeeded. |
| MembershipCatchUp.HealthyAskedAt | apps/harness/src/refresh-repositories-live.ts:365-377 | Healthy transport goes back to a connect callback of the same generation, which was such a request. |
| MembershipCatchUp.RequestIsLogged | apps/harness/src/refresh-repositories-live.ts:240-257 | Such a request is in the log: owed while an activation is open, else in service at once. |
| MembershipCatchUp.LogDebtsAreCovered | apps/harness/src/refresh-repositories-live.ts:240-318 | By the log, an unserved request of the current generation is pending or backing off in the one live activation, and an idle loop on a healthy connection owes nothing. |
| MembershipCatchUp.DebtMeaning | apps/harness/src/refresh-repositories-live.ts:263-280 | What owed, serving and paid say about the order of requests, fetch starts and fetch successes in the log. |
| MembershipCatchUp.TwoSlicesSettle | apps/harness/src/refresh-repositories-live.ts:259-309 | With no further request two slices of the loop (a wait or an older fetch, then one fetch) settle every debt. |
| MembershipTransport.RunKeepsTransport | apps/harness/src/refresh-repositories-live.ts:165-181 | Over every run: healthy means no armed timer and no warning; while unhealthy the grace timer is armed, once. |
| MembershipTransport.WarningOnlyAfterGrace | apps/harness/src/refresh-repositories-live.ts:173-181 | The warning is on only if transport has been unhealthy without a break for at least the grace period. |
| MembershipTransport.OnlyTransportMovesHealth | apps/harness/src/refresh-repositories-live.ts:320-330 | Catch-up outcomes, visibility, change and activity callbacks and callbacks of older generations change neither health nor warning nor timer. |
| MembershipTransport.DegradedAlwaysWarns | apps/harness/src/refresh-repositories-live.ts:173-181 | While degraded and not aborted the warning is on, or an armed timer is enabled to turn it on once the grace period is over. |
| MembershipTrace.RunKeeps | apps/harness/src/refresh-repositories-live.ts:332-438 | An acceptor for well-formed diagnostic traces accepts the log of every run, and every backoff is exact. |
| MembershipTrace.AcceptedShape | apps/harness/src/refresh-repositories-live.ts:344-432 | What acceptance means: per generation at most one connect, exactly one disconnect once superseded and after any connect, failures only for the generation of the moment. |
| MembershipTrace.DiagnosticsWellFormed | apps/harness/src/refresh-repositories-live.ts:344-432 | The counts of connects and disconnects of each generation in every run. |
| MembershipTrace.BackoffIsExponential | apps/harness/src/refresh-repositories-live.ts:295-304 | The wait after the k-th earlier failure in a row is min(base * 2^k, 30000); the first is the base itself. |
| MembershipTimes.DisconnectTells | apps/harness/src/refresh-repositories-live.ts:388-432 | The end of an attempt reports why it ended, and how long it had not been heard of: the age of a stale stream, else the time since the last callback of the attempt if it had connected, else none. |
| MembershipTimes.ClockShowsLastHeard | apps/harness/src/refresh-repositories-live.ts:341-385 | The activity clock shows the last callback of the current attempt, and nothing before one. |
| MembershipTimes.BackoffLasts | apps/harness/src/refresh-repositories-live.ts:287-300 | A failed catch-up of the current attempt is retried no sooner than after the wait its diagnostic is for. |
| MembershipTimes.ReconnectLasts | apps/harness/src/refresh-repositories-live.ts:437-437 | The next attempt begins no sooner than the retry delay after the last one ended. |
| MembershipFollowerObject.Follower.constructor | apps/harness/src/refresh-repositories-live.ts:123-136 | The follower starts with the grace timer armed and its first attempt open, in a state that meets the class invariant: single flight, no lost request, a well-formed trace, exact waits and a timer that follows health. |
| MembershipFollowerObject.Follower.RequestCatchUp | apps/harness/src/refresh-repositories-live.ts:240-318 | The closure variables after a request are those of the specification, also when the loop starts within it. |
| MembershipFollowerObject.Follower.ContinuePass | apps/harness/src/refresh-repositories-live.ts:259-316 | The while loop up to its next await, or through its finally block. |
| MembershipFollowerObject.Follower.FetchResolves | apps/harness/src/refresh-repositories-live.ts:274-280 | A successful fetch resets the backoff and goes on with the loop; like every event it keeps the class invariant. |
| MembershipFollowerObject.Follower.FetchRejects | apps/harness/src/refresh-repositories-live.ts:281-297 | Abort, cancellation, supersede and failure after a rejected fetch, keeping the class invariant. |
| MembershipFollowerObject.Follower.BackoffEnds | apps/harness/src/refresh-repositories-live.ts:298-307 | What a finished backoff wait does for a current and for a superseded generation, keeping the class invariant. |
| MembershipFollowerObject.Follower.MarkHealthy | apps/harness/src/refresh-repositories-live.ts:165-171 | Healthy transport clears timer and warning, for the current generation only. |
| MembershipFollowerObject.Follower.MarkUnhealthy | apps/harness/src/refresh-repositories-live.ts:173-181 | Unhealthy transport arms the grace timer unless it is armed. |
| MembershipFollowerObject.Follower.RunReconnectLoop | apps/harness/src/refresh-repositories-live.ts:333-355 | A new attempt: next generation, backoff and activity reset, waits woken. |
| MembershipFollowerObject.Follower.StreamConnects | apps/harness/src/refresh-repositories-live.ts:369-377 | The connect callback, in its order: health, catch-up, diagnostic; it keeps the class invariant. |
| MembershipFollowerObject.Follower.StreamSettles | apps/harness/src/refresh-repositories-live.ts:388-437 | The end of an attempt: stale and disconnect diagnostics with the right age, then unhealthy and waiting; it keeps the class invariant. |
| RouteFlightsColumns.AssignmentIsPlacement | apps/harness/src/pipeline-route-transition.ts:120-134 | The assignment map holds exactly the placement of the board. |
| RouteFlightsColumns.ColumnMatchesCount | apps/harness/src/pipeline-route-transition.ts:250-316 | A rendered column has as many distinct cards as its lane counts, the clamp at zero never bites, and an item is in it exactly if this is the one lane it is shown in. |
| RouteFlightsColumns.CardsTellTheTruth | apps/harness/src/pipeline-route-transition.ts:270-316 | A card is grey exactly while a pre-absorb flight holds its item, and arriving exactly while its flight absorbs. |
| RouteFlightsRuns.ReplanOk | apps/harness/src/pipeline-route-transition.ts:363-387 | Replanning keeps one flight per item, each bound for the lane its item is now in and from another. |
| RouteFlightsRuns.RunKeepsHook | apps/harness/src/pipeline-route.tsx:153-258 | Over every run of renders, timers and effects the hook keeps its invariant. |
| RouteFlightsRuns.BoardIsConsistent | apps/harness/src/pipeline-route.tsx:126-201 | In every reachable state each lane renders exactly as many cards as it counts and each item is shown in exactly one lane. |
| RouteFlightsRuns.CountsAreConserved | apps/harness/src/pipeline-route-transition.ts:203-230 | In every reachable state the displayed counts of all lanes sum to the true counts. |
| RouteFlightsRuns.FlushIsExact | apps/harness/src/pipeline-route.tsx:204-257 | After the passive effect each flight has exactly one timer, for its own phase, and no other timer is left. |
| RouteFlightsRuns.TickMeasure | apps/harness/src/pipeline-route-transition.ts:333-348 | A timer of a live flight takes exactly one phase off what is left to do; any other takes nothing. |
| RouteFlightsRuns.QuietBoardConverges | apps/harness/src/pipeline-route.tsx:204-257 | Without board changes at most four live ticks per flight happen, a flight left always has a live timer, and when none is left the board shows exactly the true columns and counts. |
| RouteFlightsOrder.GreysRestore | apps/harness/src/pipeline-route-transition.ts:285-315 | Re-inserting greyed cards at their recorded indices in index order restores the prior order, for any set of leavers. |
| RouteFlightsOrder.FrozenColumn | apps/harness/src/pipeline-route-transition.ts:250-316 | When the movers of a lane have just taken off and no other flight touches it, the lane shows its prior column card for card. |
| RouteFlightsOrder.FirstFrameIsUnmoved | apps/harness/src/pipeline-route.tsx:153-201 | A lane that no flight touches shows its prior column in the first frame after a change, whatever moves, flies, appears or vanishes elsewhere, if its leavers stay on the board, its arrivals were there and what stays keeps its relative order. |
| RouteFlightsLives.FlightStaysIff | apps/harness/src/pipeline-route-transition.ts:363-387 | A commit with motion keeps a flight, with its phase and index, exactly if its item is in the column the flight is bound for. |
| RouteFlightsLives.MoverTakesOff | apps/harness/src/pipeline-route.tsx:153-201 | In a commit with motion every item that changed column takes off from its old place towards its new column. |
| RouteFlightsLives.OnlyMoversTakeOff | apps/harness/src/pipeline-route.tsx:153-201 | A flight that a commit adds carries an item that changed column, between just those columns. |
| RouteFlightsLives.TimerMovesOn | apps/harness/src/pipeline-route.tsx:208-247 | The timer of a flight moves it on by one phase and ends it after the last, and moves no other flight. |
| RouteFlightsLives.FlightLives | apps/harness/src/pipeline-route.tsx:153-258 | Over every run a flight stays as it is through every step but its own timer, a board on which its item is not where it is bound for, and a change of placement without motion. |
| RouteFlightsLives.FlightEndsIff | apps/harness/src/pipeline-route.tsx:153-258 | Over every run a flight ends exactly by its own timer after the absorb phase, or by such a board or change. |
| RouteFlightsObject.LaneAssignmentFromLaneItems | apps/harness/src/pipeline-route-transition.ts:120-134 | The loop fills the assignment map of the specification for any order of iteration, and for a well-formed board the lanes do not depend on that order. |
| RouteFlightsObject.PlanLaneTransitions | apps/harness/src/pipeline-route-transition.ts:104-118 | The loop lists exactly the items that changed lane, in assignment order. |
| RouteFlightsObject.ReconcileFlights | apps/harness/src/pipeline-route-transition.ts:363-387 | The loop keeps the flights still bound for their lane and plans the other movers. |
| RouteFlightsObject.CountPending | apps/harness/src/pipeline-route-transition.ts:203-217 | The two maps count pre-absorb flights into and out of every lane. |
| RouteFlightsObject.DisplayLaneCounts | apps/harness/src/pipeline-route-transition.ts:203-230 | Every lane gets its display count. |
| RouteFlightsObject.PresentLaneColumnItems | apps/harness/src/pipeline-route-transition.ts:250-316 | The splicing loops give the column of the specification. |
| RouteFlightsObject.PipelineRouteFlights.Render | apps/harness/src/pipeline-route.tsx:126-202 | A render with its layout effect is the commit of the specification. |
| RouteFlightsObject.PipelineRouteFlights.RunLayoutEffect | apps/harness/src/pipeline-route.tsx:153-202 | The layout effect, with the prior order taken before the refs move on. |
| RouteFlightsObject.PipelineRouteFlights.PhaseTimer | apps/harness/src/pipeline-route.tsx:208-247 | The phase timer callback advances or ends its flight, unless it was cancelled or has moved on. |
| RouteFlightsObject.PipelineRouteFlights.ArmTimers | apps/harness/src/pipeline-route.tsx:204-257 | The passive effect arms missing timers and drops the others. |
| DebtLogs.DebtMeaning | apps/harness/src/refresh-work-items-live.ts:152-163 | What owed, serving and paid say about the order of requests, pass starts and successes. |
| CommittedCountsProofs.RunKeeps | apps/harness/src/refresh-work-items-live.ts:144-212 | Over every run: one refresh loop and one retry loop at most, handles exact, one pending promise, and pending exactly while no pass has started since the last request. |
| CommittedCountsProofs.NoRequestIsLost | apps/harness/src/refresh-work-items-live.ts:144-212 | Of the coalescer alone, for every scheduled or direct request while nothing is aborted: a pass that started at or after that step has succeeded or is open, or one is due and a loop is alive to make it, or the newest refresh has failed and its retry loop or direct caller knows. |
| CommittedCountsProofs.LogDebtsAreCovered | apps/harness/src/refresh-work-items-live.ts:144-212 | By the log, a request that no pass started after is pending with a live loop, and an unpaid scheduled request is pending, or its refresh is awaited by the retry loop or by a direct caller. |
| CommittedCountsProofs.RejectsIffLastPassFailed | apps/harness/src/refresh-work-items-live.ts:149-176 | A promise settles once, at a pass with nothing pending behind it, and rejects exactly if that pass failed and nothing was aborted. |
| CommittedCountsProofs.TrailingRefreshUnreachable | apps/harness/src/refresh-work-items-live.ts:171-174 | The trailing recursive refresh is never taken. |
| CommittedCountsProofs.AbortStopsPasses | apps/harness/src/refresh-work-items-live.ts:152-170 | After abort no pass starts and nothing stays pending. |
| CommittedCountsProofs.LetsGoIff | apps/harness/src/refresh-work-items-live.ts:186-212 | A step lets go of an unpaid scheduled request exactly when the retry loop wakes from an older refresh that resolved while a newer direct one has not succeeded. |
| CommittedCountsProofs.RetryRescheduleReachable | apps/harness/src/refresh-work-items-live.ts:205-210 | The reschedule of the retry loop is reachable and picks up a request that arrived as a refresh resolved. |
| OpenCounts.NoRequestIsLost | apps/harness/src/refresh-work-items-live.ts:238-262 | Over every run: one invalidation at a time, and pending exactly while none has started since the last request. |
| OpenCounts.TrailingRescheduleUnreachable | apps/harness/src/refresh-work-items-live.ts:255-260 | The loop ends only with nothing pending, so its reschedule is never taken. |
| FullRefresh.RetriedUntilSuccess | apps/harness/src/refresh-work-items-live.ts:323-346 | Over every run: one full refresh at a time, and the loop is idle exactly when the last request was followed by a later, successful one. |
| FullRefresh.TrailingRescheduleUnreachable | apps/harness/src/refresh-work-items-live.ts:339-344 | The loop never ends with a request pending. |
| WorkItemsFollowerProofs.RunKeeps | apps/harness/src/refresh-work-items-live.ts:144-406 | Over every run of the whole follower the coalescers keep their invariants, and the newest count refresh has a retrier until it has succeeded. |
| WorkItemsFollowerProofs.LogDebtsAreLookedAfter | apps/harness/src/refresh-work-items-live.ts:306-406 | By the log, an unpaid scheduled request is pending with a live loop, is being served, or its last refresh failed and the retry, full-refresh or reconnect loop reacts to just that failure. |
| WorkItemsFollowerProofs.RetryLoopHandsOver | apps/harness/src/refresh-work-items-live.ts:186-212 | When the retry loop ends with its request unpaid, the full-refresh loop or the reconnect loop retries the refresh that is to pay it. |
| WorkItemsFollowerProofs.HandOverHappens | apps/harness/src/refresh-work-items-live.ts:186-212 | A run of the follower in which the retry loop hands an unpaid request over. |
| WorkItemsFollowerProofs.PaidWithinFourSteps | apps/harness/src/refresh-work-items-live.ts:306-406 | From every reachable state, if fetches succeed from now on, four steps of the loops in charge pay every scheduled request. |
| WorkItemsRequests.EveryRequestIsLookedAfter | apps/harness/src/refresh-work-items-live.ts:144-406 | For every change, connection and start of a whole refresh while nothing is aborted: a count pass that started at or after that step has succeeded or is open, or one is due, or the newest refresh has failed and the retry, full-refresh or reconnect loop reacts to just that failure. Told by events and open passes alone. |
| WorkItemsRequests.ChangeIsScheduled | apps/harness/src/refresh-work-items-live.ts:186-193 | A change is in the log of scheduled requests, owed while a pass is due and else in service; behind an open pass one is always due. |
| WorkItemsRequests.EveryInvalidationHappens | apps/harness/src/refresh-work-items-live.ts:238-262 | After every change, connection and start of a whole refresh an invalidation of the open counts starts, or one is pending with a live loop. |
| WorkItemsRequests.EveryReturnRefreshes | apps/harness/src/refresh-work-items-live.ts:323-352 | After every return to a visible tab a whole refresh that started no earlier has succeeded or is open, or one is due behind the open one or after the delay. |
| WorkItemsFollowerObject.Follower.ContinueRun | apps/harness/src/refresh-work-items-live.ts:152-176 | The refresh loop to its next pass or through the code behind it, on the closure variables. |
| WorkItemsFollowerObject.Follower.RefreshCommittedCounts | apps/harness/src/refresh-work-items-live.ts:144-179 | A request joins the live loop or starts one, and hands out its promise. |
| WorkItemsFollowerObject.Follower.ScheduleCommittedCounts | apps/harness/src/refresh-work-items-live.ts:186-212 | A scheduled request joins the retry loop or starts one. |
| WorkItemsFollowerObject.Follower.CountPassSettles | apps/harness/src/refresh-work-items-live.ts:154-163 | A pass succeeds or fails and the loop goes on; like every event it keeps the invariant of the follower. |
| WorkItemsFollowerObject.Follower.RetryLoopResumes | apps/harness/src/refresh-work-items-live.ts:197-211 | The retry loop after its promise settled: it returns, reschedules or waits, and the invariant is kept. |
| WorkItemsFollowerObject.Follower.ScheduleOpenCounts | apps/harness/src/refresh-work-items-live.ts:238-262 | A request joins the live invalidation loop or starts one. |
| WorkItemsFollowerObject.Follower.ScheduleRefreshAll | apps/harness/src/refresh-work-items-live.ts:323-346 | A request joins the live full-refresh loop or starts one, with the requests it makes of the other two; the invariant is kept. |
| WorkItemsFollowerObject.Follower.FullRefreshSettles | apps/harness/src/refresh-work-items-live.ts:330-345 | A full refresh fails, or succeeds after the count refresh it awaits did, and the loop waits, repeats or ends; the invariant is kept. |
| WorkItemsFollowerObject.Follower.StreamConnects | apps/harness/src/refresh-work-items-live.ts:380-385 | A new connection starts a whole refresh and awaits it; the invariant is kept. |
| WorkItemsFollowerObject.Follower.ConnectionRefreshSettles | apps/harness/src/work-items-live.ts:63-63 | The stream reads on after a whole refresh that succeeded, and throws into the reconnect loop after one that failed; the invariant is kept. |
| WorkItemsFollowerObject.Follower.AbortSignal | apps/harness/src/refresh-work-items-live.ts:356-373 | Abort clears the flags of all three coalescers and wakes their waits. |
| Sequences.SortFilter | apps/harness/src/statistics-model.ts:86-88 | Stable sorting commutes with filtering. |
| Sequences.SortIsStable | apps/harness/src/statistics-model.ts:85-88 | Elements with equal keys keep their order. |
| Sequences.StableSortUnique | apps/harness/src/statistics-model.ts:85-88 | There is only one stable sort, so any implementation of it gives these results. |
| TimingStatistics.MeasureAttempts | apps/harness/src/statistics-model.ts:76-136 | The counting loop with its map of seen steps computes the totals over the details of the sorted attempts, in which an attempt repeats if an eligible one at its step precedes it. |
| TimingStatistics.CountAttempt | apps/harness/src/statistics-model.ts:88-124 | What one attempt adds to the counters. |
| TimingTimes.TimesOfAnAttempt | apps/harness/src/statistics-model.ts:63-121 | For an attempt queued at q, started at s and finished at f: duration f - s, queue s - q, together f - q, and the session wait the recorded one between 0 and the duration. |
| TimingTimes.DetailTimes | apps/harness/src/statistics-model.ts:63-121 | A duration exists exactly if start and finish are known and in order, and a queue time exactly if the attempt left the queue, by starting or else by finishing, no earlier than it entered. |
| TimingTimes.MeasuredTimes | apps/harness/src/statistics-model.ts:76-136 | Recorded, queue and session wait times of a task are the sums of its attempts' own times, in any order of the attempts; timed counts those that ran and missing those of unknown duration. |
| TimingTimes.RepeatedTimes | apps/harness/src/statistics-model.ts:100-112 | The repeat time of a task is the time of the attempts marked as repeats. |
| TimingTimes.StepRepeats | apps/harness/src/statistics-model.ts:100-108 | A step repeats once for every try after its first, where a try started and was neither postponed nor cancelled; the polling watch never does. |
| TimingDecomposition.MeasureCommutes | apps/harness/src/statistics-model.ts:138-156 | Measuring the attempts at some steps gives exactly the details the whole measurement has for them. |
| TimingDecomposition.StepsDecompose | apps/harness/src/statistics-model.ts:171-179 | All seven totals of a task are the sums over its steps, for any list of steps that covers it. |
| TimingDecomposition.RepeatsPerStep | apps/harness/src/statistics-model.ts:100-112 | A step repeats max(0, eligible attempts - 1) times, whatever the order of the attempts. |
| TimingDecomposition.RepeatsCountExtraAttempts | apps/harness/src/statistics-model.ts:100-112 | A task repeats once for every eligible attempt beyond the first of its step. |
| TimingDecomposition.LanesDecompose | apps/harness/src/statistics-model.ts:138-156 | All seven totals of a task are the sums over its three lanes and the steps outside them, for any table of lanes. |
| TimingDecomposition.ProjectTimingTask | apps/harness/src/statistics-model.ts:138-156 | The task and its three lanes by the lane table of the page: their totals differ from those of the task by exactly what its steps outside every lane measure. |
| TimingDecomposition.NothingOutsideLanes | apps/harness/src/statistics-model.ts:140-145 | When every step has a lane the remainder measures nothing. |
| TimingDecomposition.ExecutionDecomposes | apps/harness/src/statistics-model.ts:126-128 | A task has an execution time exactly if no part misses a duration and some part has one; it is the sum of those. |
| TimingDecomposition.StepNamesCover | apps/harness/src/statistics-model.ts:172-174 | The step list holds every step of every task once. |
| TimingDecomposition.StepTableIsComplete | apps/harness/src/statistics-model.ts:171-198 | The repeat, repeat-time, missing and attempt-time columns of the step table sum to the whole-task numbers of all tasks. |
| TimingDecomposition.LaneTableIsComplete | apps/harness/src/statistics-model.ts:158-170 | The repeat columns of the lane table, with the steps outside the lanes, sum to the whole-task numbers of all tasks. |
| Percentiles.PercentileIgnoresOrder | apps/harness/src/statistics-model.ts:37-46 | The percentile depends on the values only, not on their order. |
| Percentiles.PercentileMonotone | apps/harness/src/statistics-model.ts:42-45 | For fractions in [0, 1] a larger fraction never gives a smaller percentile. |
| Percentiles.PercentileWithinValues | apps/harness/src/statistics-model.ts:42-45 | The percentile lies between two of the values. |
| Percentiles.PercentileExtremes | apps/harness/src/statistics-model.ts:42-45 | Fractions 0 and 1 give the least and the greatest value. |
| Percentiles.PercentileSplitsValues | apps/harness/src/statistics-model.ts:42-45 | At least floor((n-1)f) + 1 values are at or below the percentile and at least n - ceil((n-1)f) at or above it. |
| Percentiles.PercentileIsLinear | apps/harness/src/statistics-model.ts:42-45 | Between neighbours of the values in ascending order the percentile moves on the straight line from one to the other. |
| Percentiles.MedianIsInTheMiddle | apps/harness/src/statistics-model.ts:52-52 | The median is the middle value, or the mean of the two in the middle. |
| Percentiles.SummaryIsCoherent | apps/harness/src/statistics-model.ts:47-55 | Average, median and P90 exist exactly if there are values; every bound of the values bounds them, and the median never exceeds P90. |
| EventFrames.BoundaryStays | apps/harness/src/repository-live.ts:180-186 | More text never moves or resizes a boundary that was found. |
| EventFrames.SplitResumes | apps/harness/src/repository-live.ts:180-201 | Cutting a prefix and then what it left over together with the rest gives the frames of the whole. |
| EventFrames.SplitLosesNothing | apps/harness/src/repository-live.ts:183-185 | Frames, separators and remainder put together are the text. |
| EventFrames.RoundTripIff | apps/harness/src/repository-live.ts:180-201 | Cutting what a sender joined gives back its frames exactly if each frame has no boundary inside and does not end in a newline (or, before a bare newline, a carriage return), and the remainder has no boundary. |
| EventFrames.ChunkingIsInvisible | apps/harness/src/repository-live.ts:227-239 | For every text and every split into chunks, also inside a separator, the delivered events and the reason to stop are those of the whole text, up to the first frame that ends the stream. |
| EventFrames.NothingAfterTheEnd | apps/harness/src/repository-live.ts:188-188 | Text after the frame that ended the stream changes nothing. |
| SubscriptionEvents.ScanFields | apps/harness/src/repository-live.ts:48-54 | The line loop finds the last event type and all data lines. |
| SubscriptionEvents.ParseSubscriptionEvent | apps/harness/src/repository-live.ts:38-68 | The repository parser computes the specified reading of a frame. |
| SubscriptionEvents.ParseIssuesEvent | apps/harness/src/issues-live.ts:3-24 | The issues parser, with the stop rule of its stream, computes the specified reading of a frame. |
| SubscriptionEvents.WrittenIsRead | apps/harness/src/repository-live.ts:41-54 | A frame written as an event line and a data line is read back as exactly that type and text. |
| SubscriptionEvents.WrittenFrameIsHandled | apps/harness/src/repository-live.ts:56-67 | What a written frame does, by its type and by what its JSON says. |
| SubscriptionEvents.StopRulesAgreeIff | apps/harness/src/issues-live.ts:77-77 | On written frames the two streams agree about the end unless the type only begins with complete. |
| SubscriptionEvents.StopRulesDisagree | apps/harness/src/issues-live.ts:77-77 | A frame that ends the repository stream but not the issues stream. |
| SubscriptionEvents.WrittenIssuesFrameIsHandled | apps/harness/src/issues-live.ts:3-24 | On the issues stream a written frame delivers the repository its JSON names, unless its type says otherwise. |
| SubscriptionEvents.CommentIsDelivered | apps/harness/src/repository-live.ts:41-46 | A frame of comment lines, of any number and with either newline, is reported as a comment by the repository stream and passed over by the issues stream. |
| SubscriptionEvents.LastEventLineCounts | apps/harness/src/repository-live.ts:48-53 | The type of a frame is that of its last event line. |
| SubscriptionEvents.DataLinesInOrder | apps/harness/src/repository-live.ts:51-54 | The data of a frame are its data lines, in order. |
| SubscriptionEvents.JoinedLinesSplit | apps/harness/src/repository-live.ts:60-60 | The text joined from data lines has exactly those lines. |
| RepositoryStreamProofs.RunKeeps | apps/harness/src/repository-live.ts:136-250 | Over every run: the watch is set exactly while the stream is live, neither stale nor aborted, and due at the right time; buffer and reports match the accepted text. |
| RepositoryStreamProofs.ClockShowsLastChunk | apps/harness/src/repository-live.ts:159-161 | The activity clock of a live stream shows the last non-empty chunk. |
| RepositoryStreamProofs.StaleMeansSilence | apps/harness/src/repository-live.ts:149-157 | A stale error was raised when no non-empty chunk had arrived for at least the bound, and its age is that silence. |
| RepositoryStreamProofs.BusyStreamNeverStale | apps/harness/src/repository-live.ts:149-157 | A stream whose non-empty chunks, and its end, each come less than the bound after the chunk before, or one without a bound, never goes stale; nothing is assumed of the timer. |
| RepositoryStreamProofs.HeartbeatKeepsAlive | apps/harness/src/repository-live.ts:9-17 | A heartbeat chunk every 12 seconds, each up to 30 seconds late, never trips the 45 second bound. |
| RepositoryStreamProofs.NothingAfterStale | apps/harness/src/repository-live.ts:169-174 | Once stale, no activity is reported, no text accepted, and the stream can only end as stale with that age. |
| RepositoryStreamProofs.NothingAfterAbort | apps/harness/src/repository-live.ts:169-174 | An aborted stream that was not stale reports nothing and accepts no text, and its next read ends it as aborted or throws. |
| RepositoryStreamProofs.HowItEnds | apps/harness/src/repository-live.ts:211-239 | A stream that is neither stale nor aborted ends exactly by the first ending frame of its text, by the end of its body without one, or by a read that throws. |
| RepositoryStreamProofs.ReportsMatchText | apps/harness/src/repository-live.ts:180-201 | At every moment the reported frames are those of the accepted text; the stream completed, or failed by a frame, exactly if the first ending frame of that text completes or fails it. |
| RepositoryStreamProofs.RunsAgree | apps/harness/src/repository-live.ts:211-241 | Two runs that accepted the same text report the same frames and agree about completion and about failure by a frame. |
| RepositoryStreamProofs.HeartbeatsOnly | apps/harness/src/repository-live.ts:180-201 | A stream of heartbeat frames only never ends as complete or failed, and reports one comment for each. |
| EventStreamObjects.StreamIssuesChanged | apps/harness/src/issues-live.ts:64-84 | The nested loops deliver and stop as the whole text decides, however it is chunked. |
| EventStreamObjects.RepositoryChanges.DrainFrames | apps/harness/src/repository-live.ts:180-201 | The drain loop on the buffer field reports and stops as specified and leaves the specified remainder. |
| EventStreamObjects.RepositoryChanges.AfterRead | apps/harness/src/repository-live.ts:213-239 | One return of the reader: stale first, then abort, then the chunk, the frames and the end. |
| EventStreamObjects.RepositoryChanges.OnStaleTimer | apps/harness/src/repository-live.ts:152-156 | The stale timer records the age and nothing else. |
| ThrottleBanner.RetryAtFromError | apps/harness/src/github-throttle-errors.ts:30-45 | The fold finds the greatest throttle deadline after now in an error, or none. |
| ThrottleBanner.DeadlineIff | apps/harness/src/github-throttle-errors.ts:15-45 | An error mentions exactly the deadlines of its throttling errors: the whole part of a number in range, or the instant a text reads as. |
| ThrottleBanner.RunKeepsTimer | apps/harness/src/github-throttle-errors.ts:86-109 | Over every run: one hide timer is pending exactly while a deadline is shown, it is for that deadline, and disposal leaves none. |
| ThrottleBanner.HideAlwaysMatches | apps/harness/src/github-throttle-errors.ts:100-105 | A timer that fires always finds its own deadline shown, and hides it. |
| ThrottleBanner.BannerIsLatest | apps/harness/src/github-throttle-errors.ts:89-118 | At every moment the shown deadline, if still to come, is the greatest of all deadlines ever considered that are still to come, for any order and repetition of errors and however late the timers. |
| ThrottleBanner.OrderIsInvisible | apps/harness/src/github-throttle-errors.ts:111-118 | Two followers that considered the same deadlines show the same at the same time. |
| ThrottleBanner.HidesEarlyIff | apps/harness/src/github-throttle-errors.ts:95-107 | From any correct state, showing a new deadline can go wrong at its hide timer if and only if the deadline is 2^31 ms or more ahead. |
| ThrottleBanner.FarDeadlineVanishes | apps/harness/src/github-throttle-errors.ts:61-69 | A deadline 2^32 ms ahead may be hidden at once. |
| ThrottleBannerObject.ThrottleFollower.PublishDeadline | apps/harness/src/github-throttle-errors.ts:89-109 | Publishing on the closure variables: the old timer cancelled, a new one set or the deadline dropped. |
| ThrottleBannerObject.ThrottleFollower.ConsiderError | apps/harness/src/github-throttle-errors.ts:111-118 | An error is considered with its latest future deadline. |
| ThrottleBannerObject.ThrottleFollower.OnHideTimer | apps/harness/src/github-throttle-errors.ts:100-105 | The hide callback. |
| ThrottleBannerObject.ThrottleFollower.DisposeFollower | apps/harness/src/github-throttle-errors.ts:138-142 | Disposal cancels the pending timer. |
| LifecycleChips.SumLaneDurationMs | apps/harness/src/pipeline-lanes.ts:203-214 | The loop computes the nullable sum. |
| LifecycleChips.SumIsNoneIff | apps/harness/src/pipeline-lanes.ts:199-214 | The sum is absent exactly if every duration is. |
| LifecycleChips.EarlierLifecycleLanes | apps/harness/src/pipeline-lanes.ts:182-190 | The lanes strictly before the focus, in order. |
| LifecycleChips.PlanConserves | apps/harness/src/pipeline-lanes.ts:250-363 | For every list and every option the blocks hold exactly the given chips: as a multiset, in order within every lane, and in total time. |
| LifecycleChips.PlanIsWellFormed | apps/harness/src/pipeline-lanes.ts:311-362 | Blocks follow Build, Review, PR order, at most one per lane, none of them empty when collapsed, with at most one further block, at the end. |
| LifecycleChips.FullListIff | apps/harness/src/pipeline-lanes.ts:265-273 | The full list is shown, alone, exactly if collapsing is off, there is nothing to show, or there is no lane to focus on. |
| LifecycleChips.LaneCollapsesIff | apps/harness/src/pipeline-lanes.ts:307-345 | A lane is collapsed exactly if collapsing is on, it has chips, and all lanes are to collapse or the focus comes later. |
| LifecycleChips.CollapsedBlockIs | apps/harness/src/pipeline-lanes.ts:290-305 | A collapsed lane shows its chips, is open if the user opened it, and bears its own name. |
| LifecycleChips.BlockTimesAddUp | apps/harness/src/pipeline-lanes.ts:298-308 | The durations of the blocks add up to that of the list. |
| LifecycleChips.GroupByLane | apps/harness/src/pipeline-lanes.ts:275-289 | The buckets hold the chips of each lane in order. |
| LifecycleChips.PlanLifecycleChipPresentation | apps/harness/src/pipeline-lanes.ts:250-363 | The planner computes the specified blocks. |
| ArchiveLegs.GroupsRefineLanes | apps/harness/src/archive-legs.ts:100-112 | The archive groups phases as the board does, only finer. |
| ArchiveLegs.CollectGroups | apps/harness/src/archive-legs.ts:114-147 | The buckets hold the chips of each group in order. |
| ArchiveLegs.SumNullableMs | apps/harness/src/archive-legs.ts:178-189 | The loop computes the nullable sum of nullable parts. |
| ArchiveLegs.GroupSumsAgree | apps/harness/src/archive-legs.ts:321-330 | The nullable sum of the group durations is the sum over the concatenated change-request chips. |
| ArchiveLegs.GroupedKeepsChips | apps/harness/src/archive-legs.ts:124-128 | The groups hold exactly the chips that have a lane. |
| ArchiveLegs.JourneyIsWellShaped | apps/harness/src/archive-legs.ts:300-514 | Legs are never empty, distinct and in journey order; a failed leg only for abandoned items, with only skips after it. |
| ArchiveLegs.FailShownIff | apps/harness/src/archive-legs.ts:434-475 | A failed leg is shown exactly if an abandoned, incomplete item has a failed chip in some group. |
| ArchiveLegs.LegTimes | apps/harness/src/archive-legs.ts:300-514 | For every item each leg shows the chips of its stop and their time; only a failed change-request leg shows the time of its failed chips. |
| ArchiveLegs.LegsHoldGroupsIff | apps/harness/src/archive-legs.ts:338-514 | The legs hold exactly the grouped chips if and only if each stop shows its own, for every item. |
| ArchiveLegs.CompleteHoldsAll | apps/harness/src/archive-legs.ts:369-422 | A complete item that is no no-change item keeps every grouped chip and their total time. |
| ArchiveLegs.PlanArchiveLegs | apps/harness/src/archive-legs.ts:300-514 | The planner, branch by branch over the status, computes the journey specified stop by stop. |
| ImplementWithDraft.ReconcileMakesLegal | apps/harness/src/execution-profile-draft.ts:211-239 | Reconciling makes every level legal, keeps the models, and leaves a draft alone exactly if it was legal. |
| ImplementWithDraft.PassesIff | apps/harness/src/agent-model-settings.ts:223-243 | A required model passes exactly if a settled catalog has an entry for it. |
| ImplementWithDraft.LegalDraftGivesLegalProfile | apps/harness/src/execution-profile-draft.ts:108-130 | The profile of a legal draft names models and levels of the catalog. |
| ImplementWithDraft.BlankReviewIsDropped | apps/harness/src/execution-profile-draft.ts:105-129 | A review model of white space only passes the check and is submitted as none. |
| ImplementWithSession.PinStepKeeps | apps/harness/src/implement-with-issue-dialog.tsx:147-171 | A render may pin the first READY preview fetched in this session and never replaces a pin; then the pin is the catalog. |
| ImplementWithSession.RunKeeps | apps/harness/src/implement-with-dialog.tsx:142-279 | Over every run: any usable catalog is pinned, the draft on screen is the slot of its backend, and user drafts are legal for their pinned catalog. |
| ImplementWithSession.PinNeverChanges | apps/harness/src/execution-profile-draft.ts:142-157 | The catalog of a backend never changes after its first accepted READY preview. |
| ImplementWithSession.PinnedCatalogIsShown | apps/harness/src/execution-profile-draft.ts:182-204 | Whenever a pinned backend is selected, its pinned catalog is in use, neither loading nor failed. |
| ImplementWithSession.SubmissionsAreLegal | apps/harness/src/implement-with-dialog.tsx:229-279 | Every submission that was not disabled carries build and explicit review models from the catalog pinned for its backend, each with an advertised level or none. |
| ImplementWithSession.SubmitRecordsIff | apps/harness/src/implement-with-dialog.tsx:266-279 | Submitting records the draft on screen for its backend, blank text as none, exactly if nothing is being submitted and the pinned catalog has entries for its models. |
| ImplementWithSession.UserDraftSurvives | apps/harness/src/implement-with-dialog.tsx:155-175 | A user draft survives everything but edits under its own backend, and is back on screen whenever that backend is. |
| ImplementWithSession.EditTakesEffect | apps/harness/src/implement-with-dialog.tsx:254-264 | Each edit puts its value on screen, keeps the level only if the new model offers it, and leaves the other half of the draft alone. |
| ImplementWithSession.EditComesBack | apps/harness/src/implement-with-dialog.tsx:155-175 | What an edit leaves on screen is on screen again whenever its backend is selected, until the next edit under that backend, whatever else is rendered, switched to or edited in between. |
| ImplementWithSession.PrefsDraftFollows | apps/harness/src/implement-with-dialog.tsx:155-165 | Over every run the draft of a backend never edited is that of the preferences given to its last render, reconciled with the catalog of that render, and a backend never rendered has none. |
| ImplementWithObject.ImplementWithDialog.OnRender | apps/harness/src/implement-with-issue-dialog.tsx:147-186 | A render with its layout effect on the refs. |
| ImplementWithObject.ImplementWithDialog.UpdateBuild | apps/harness/src/implement-with-dialog.tsx:254-264 | A new build model keeps its level only if offered. |
| ImplementWithObject.ImplementWithDialog.UpdateReview | apps/harness/src/implement-with-dialog.tsx:488-509 | A new review model starts from the build or review level; the empty choice is same-as-build. |
| ImplementWithObject.ImplementWithDialog.HandleSubmit | apps/harness/src/implement-with-dialog.tsx:266-279 | Submitting does nothing when disabled and else records the profile. |
| CiGateStory.RunIdIff | apps/harness/src/ci-gate-status-story.ts:112-115 | The run id is the one colon-free text that the identity equals or begins with, followed by a colon. |
| CiGateStory.SameRunIff | apps/harness/src/ci-gate-status-story.ts:112-118 | Two identities are the same run exactly if they are texts of one run id: the bare id, or the id followed by a colon and an attempt. |
| CiGateStory.AttemptsAreTheSameRun | apps/harness/src/ci-gate-status-story.ts:112-118 | Two attempts are the same observed run exactly if their run ids are equal. |
| CiGateStory.CollectRuns | apps/harness/src/ci-gate-status-story.ts:226-324 | The loop collects what is told of each definition, in order. |
| CiGateStory.TellLatest | apps/harness/src/ci-gate-status-story.ts:266-323 | The branches of the loop body give the verdict table. |
| CiGateStory.TimesDecide | apps/harness/src/ci-gate-status-story.ts:351-362 | Filtering by attached times is filtering run by run. |
| CiGateStory.PresentCiGateStory | apps/harness/src/ci-gate-status-story.ts:219-432 | The page computes the specified story. |
| CiGateStory.OneFailingLinkEach | apps/harness/src/ci-gate-status-story.ts:244-255 | Exactly one failing link for each latched definition, in order. |
| CiGateStory.LatestRunToldOnce | apps/harness/src/ci-gate-status-story.ts:266-323 | A latest run is told at most once, as recovery or as earlier run; a success under another latch is always told, and as earlier only on proof. |
| CiGateStory.NoProofNoEarlierRun | apps/harness/src/ci-gate-status-story.ts:168-188 | Missing order keys and times prove nothing. |
| CiGateStory.EarlierRunIff | apps/harness/src/ci-gate-status-story.ts:283-297 | A latest run under another latched failure is listed as earlier exactly if it succeeded and its order key is behind that of the failure, or it began before the active incident. |
| CiGateStory.PendingRunIff | apps/harness/src/ci-gate-status-story.ts:313-322 | A pending run is told as recovery unless its order key is behind that of the failure. |
| CiGateStory.DiagnosticNotedIff | apps/harness/src/ci-gate-status-story.ts:257-264 | A diagnostic is noted exactly for a definition without a latched failure, unless the gate is open or says the same. |
| CiGateStory.ShownInIff | apps/harness/src/ci-gate-status-story.ts:190-201 | An incident shows exactly the earlier runs from its opening to its resolution, both included, or to no end. |
| CiGateStory.PredatingIsOutside | apps/harness/src/ci-gate-status-story.ts:178-201 | A run that counts as earlier for having begun before an incident is never shown in that incident. |
| CiGateStory.EarlierRunsArePartitioned | apps/harness/src/ci-gate-status-story.ts:326-362 | Every earlier run is shown in each incident window that contains it, or in the list of earlier runs; never in both and never in neither. |

## Left out

- Rendering, style, wording, relative times, URLs, local storage, native dialogs and the router: user interface.
- GraphQL clients, `fetch`, the TanStack query cache, UTF-8 decoding and JSON parsing: environment choices or unknown functions; a chunk is the text it decodes to.
- The work item lifecycle, server lane placement, `classifyCiGateObservedRun`, `compareCiGateRunOrder` and `Date.parse`: not part of this model; the last three are unknown functions.
- `refresh-issues-live.ts` and `refresh-open-pull-request-count-live.ts`: the same retry-wait pattern with less state.
- The fetches of a whole refresh of work items other than counts: they may fail it at any time, and it succeeds only after its count refresh did.
- The count invalidation that a membership catch-up starts: fire-and-forget, it touches no modelled state.
- The lane-snapshot key as a string: two boards have the same key exactly if each lane holds the same ids; ids that contain its separators are not modelled.
- Fed-lane glow, smoke and furnace styles: decoration.
- Work item ids of flights joined with a sequence number: flight ids are numbers.
- Floating point: statistics and percentiles are over exact integers and reals, without NaN and infinities.
- Unicode case mapping: `ToUpper` maps ASCII letters only, which decides every step name of the lane tables.
- The order of the step table and the observed, affected and failure counts of the statistics page: single filters over measurements.
- The archive leg labels and titles, and the Merge Policy and local options of Implement With: passed through.
- `lifecycleFocusLaneFor`: the focus lane is an arbitrary option of the chip planner.
- ImplementWithSession.EditReviewLevel: an edit is allowed whenever the review is explicit; the page also hides the control for models without levels, so the model has more runs.
- The explanation text, repair state and detection time of the CI gate story: its outstanding remarks are modelled, not their wording.
- MembershipTransport.WarningOnlyAfterGrace: measured on the model's clock at the slices of a run.
- RepositoryStreamProofs.ReportsMatchText: speaks of the frames reported to `onActivity`; the notification of a `next` frame is started with the report of that frame.
- ThrottleBanner.BannerIsLatest: for deadlines less than 2^31 ms ahead when considered; `HidesEarlyIff` shows that the limit is exact.
- CommittedCountsProofs.NoRequestIsLost: speaks of the coalescer alone; what its direct callers do is part of `EveryRequestIsLookedAfter`.
- Preference resolution of Implement With (`resolveExecutionProfileDraft`): the initial draft of a render is an arbitrary draft.
- RouteFlightsOrder.FirstFrameIsUnmoved: compares with the order last committed; a mere reordering inside a lane does not replace the memoised order.
