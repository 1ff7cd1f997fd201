/** The committed-count coalescer over every run: single-flight, no lost wakeup, and who retries a failure. */
module CommittedCountsProofs {
  import opened Options
  import opened Debts
  import opened DebtLogs
  import opened Service
  import opened CommittedCounts

  /** At most one refresh loop and one retry loop are alive, and the two handles tell exactly. */
  ghost predicate SingleFlight(s: State) {
    && |s.runs| <= 1 && |s.retries| <= 1
    && (s.retryLoop <==> s.retries != [])
    && s.refresh == if s.runs == [] then None else Some(s.runs[0].promise)
  }

  /** The promise of the live loop, and only that one, is pending. */
  ghost predicate PromisesOk(s: State)
    requires SingleFlight(s)
  {
    && (s.runs != [] ==> s.runs[0].promise < |s.promises| && s.promises[s.runs[0].promise] == Pending)
    && (forall p :: 0 <= p < |s.promises| && s.promises[p] == Pending ==> s.runs != [] && p == s.runs[0].promise)
    && (s.runs != [] && !s.aborted ==> s.runs[0].promise == |s.promises| - 1)
    && (s.retries != [] && s.retries[0].AwaitingRun? ==> s.retries[0].promise < |s.promises|)
  }

  /** `pending` says exactly that no pass has started since the last request, and a live loop must consume it. */
  ghost predicate NoLostWakeup(s: State) {
    && (s.pending ==> !s.aborted && (s.runs != [] || s.retries != []))
    && (!s.aborted ==> (s.pending <==> Unserved(s.requests)))
    && (!s.aborted && Unserved(s.scheduled) ==> s.pending)
  }

  /** The newest refresh ended with a failed pass. */
  ghost predicate LastFailed(s: State) {
    s.runs == [] && s.promises != [] && s.promises[|s.promises| - 1] == Rejected
  }

  ghost predicate RetryWillReact(s: State)
    requires s.promises != []
  {
    s.retries != [] && (s.retries[0] == AwaitingRun(|s.promises| - 1) || (LastFailed(s) && s.retries[0].Delaying?))
  }

  /** The newest refresh is awaited by the retry loop or by a caller of its own, until it has succeeded. */
  ghost predicate Watched(s: State) {
    !s.aborted && s.promises != [] && (s.runs != [] || LastFailed(s)) ==>
      |s.promises| - 1 in s.direct || RetryWillReact(s)
  }

  ghost predicate Inv(s: State) {
    SingleFlight(s) && PromisesOk(s) && NoLostWakeup(s) && Watched(s)
  }

  lemma DirectKeeps(s: State)
    requires Inv(s)
    ensures Inv(RefreshDirectly(s))
  {
  }

  lemma RetryContinues(s: State)
    requires Inv(s) && !s.aborted && |s.retries| == 1
    ensures Inv(ContinueRetry(s, 0))
  {
  }

  lemma ScheduleKeeps(s: State)
    requires Inv(s)
    ensures Inv(Schedule(s))
  {
  }

  lemma PassKeeps(s: State, ok: bool)
    requires Inv(s) && |s.runs| == 1
    ensures Inv(PassSettles(s, 0, ok))
  {
  }

  lemma RetryKeeps(s: State)
    requires Inv(s) && Enabled(s, OnRetry(0))
    ensures Inv(RetryResumes(s, 0))
  {
  }

  lemma StepKeeps(s: State, e: Event)
    requires Enabled(s, e) && Inv(s)
    ensures Inv(Next(s, e))
  {
    match e
    case OnChange => ScheduleKeeps(s);
    case OnDirect => DirectKeeps(s);
    case OnPass(i, ok) => PassKeeps(s, ok);
    case OnRetry(j) => RetryKeeps(s);
    case OnDelay(j) => if !s.aborted { RetryContinues(s); }
    case OnAbort =>
  }

  // ----- scheduled requests and failures -----

  /** A scheduled request is pending, in service, paid, or was served by a refresh that then failed. */
  ghost predicate DebtsCovered(s: State) {
    && (!s.aborted && DebtOf(s.scheduled) == Owed ==> s.pending || LastFailed(s))
    && (!s.aborted && DebtOf(s.scheduled) == Serving ==> s.runs != [])
    && (DebtOf(s.scheduled) == Unasked ==> !Unserved(s.scheduled))
  }

  lemma ScheduleKeepsDebts(s: State)
    requires Inv(s) && DebtsCovered(s)
    ensures DebtsCovered(Schedule(s))
  {
    Appended(s.scheduled, Asked, Started);
  }

  lemma PassKeepsDebts(s: State, ok: bool)
    requires Inv(s) && DebtsCovered(s) && |s.runs| == 1
    ensures DebtsCovered(PassSettles(s, 0, ok))
  {
    Appended(s.scheduled, if ok then Succeeded else Failed, Started);
  }

  lemma RetryKeepsDebts(s: State)
    requires Inv(s) && DebtsCovered(s) && Enabled(s, OnRetry(0))
    ensures DebtsCovered(RetryResumes(s, 0))
  {
    Appended(s.scheduled, Started, Started);
  }

  lemma StepKeepsDebts(s: State, e: Event)
    requires Enabled(s, e) && Inv(s) && DebtsCovered(s)
    ensures DebtsCovered(Next(s, e))
  {
    match e
    case OnChange => ScheduleKeepsDebts(s);
    case OnDirect => Appended(s.scheduled, Started, Started);
    case OnPass(_, ok) => PassKeepsDebts(s, ok);
    case OnRetry(_) => RetryKeepsDebts(s);
    case OnDelay(_) => Appended(s.scheduled, Started, Started);
    case OnAbort =>
  }

  lemma {:induction false} RunKeeps(states: seq<State>, events: seq<Event>, i: nat)
    requires IsRun(states, events) && i < |states|
    ensures Inv(states[i]) && DebtsCovered(states[i])
  {
    if i > 0 {
      RunKeeps(states, events, i - 1);
      assert Follows(states, events, i - 1);
      StepKeeps(states[i - 1], events[i - 1]);
      StepKeepsDebts(states[i - 1], events[i - 1]);
    }
  }

  /**
   * In every run at most one pass is open, a request that no pass has started after is pending with a
   * live loop, and a scheduled request not yet paid for is pending, or the newest refresh is awaited
   * by the retry loop or by a caller that asked for it directly.
   */
  lemma LogDebtsAreCovered(states: seq<State>, events: seq<Event>, i: nat)
    requires IsRun(states, events) && i < |states| && !states[i].aborted
    ensures var s := states[i];
      && |s.runs| <= 1
      && (Unserved(s.requests) ==> s.pending && (s.runs != [] || s.retries != []))
      && (DebtOf(s.scheduled) in {Owed, Serving} && !s.pending ==>
            s.promises != [] && (|s.promises| - 1 in s.direct || RetryWillReact(s)))
  {
    RunKeeps(states, events, i);
  }

  // ----- no request is lost, told by events and passes alone -----

  /** The event path schedules a refresh, or a caller asks for one itself. */
  predicate Asks(s: State, e: Event) { !s.aborted && (e.OnChange? || e.OnDirect?) }

  /** What a step does to the open pass. */
  function TurnOf(s: State, e: Event, t: State): Turn {
    Turn(e.OnPass?, e.OnPass? && e.ok, t.runs != [] && (s.runs == [] || e.OnPass?))
  }

  /** A pass is due, and a loop is alive that will make it. */
  ghost predicate Due(s: State) { s.pending && (s.runs != [] || s.retries != []) }

  /** A request behind an open pass is due; any other opens a pass or is due. */
  lemma AskIsTaken(s: State, e: Event)
    requires Inv(s) && Enabled(s, e) && Asks(s, e)
    ensures var t := Next(s, e);
      && !t.aborted && (if s.runs != [] then Due(t) else Due(t) || TurnOf(s, e, t).opens)
      && (e.OnChange? ==> DebtOf(t.scheduled) == if t.pending then Owed else Serving)
  {
    Appended(s.scheduled, Asked, Started);
  }

  /** What is due stays due or a pass opens; an open pass stays open until it ends; a failure stays until the next pass. */
  ghost predicate Onward(s: State, e: Event, t: State) {
    && (Due(s) ==> Due(t) || TurnOf(s, e, t).opens)
    && (s.runs != [] && !e.OnPass? ==> t.runs != [])
    && (e.OnPass? && !e.ok ==> TurnOf(s, e, t).opens || LastFailed(t))
    && (LastFailed(s) ==> LastFailed(t) || TurnOf(s, e, t).opens || Due(t))
  }

  lemma RetryGoesOn(s: State)
    requires Inv(s) && Enabled(s, OnRetry(0)) && !s.aborted
    ensures Onward(s, OnRetry(0), RetryResumes(s, 0))
  {
  }

  lemma PassGoesOn(s: State, ok: bool)
    requires Inv(s) && |s.runs| == 1 && !s.aborted
    ensures Onward(s, OnPass(0, ok), PassSettles(s, 0, ok))
  {
    if !s.pending && !ok { PassSettlesPromise(s, ok, s.runs[0].promise); }
  }

  lemma GoesOn(s: State, e: Event)
    requires Inv(s) && Enabled(s, e) && !Next(s, e).aborted
    ensures Onward(s, e, Next(s, e))
  {
    match e
    case OnChange =>
    case OnDirect =>
    case OnPass(_, ok) => PassGoesOn(s, ok);
    case OnRetry(_) => RetryGoesOn(s);
    case OnDelay(_) =>
    case OnAbort =>
  }

  function Turns(states: seq<State>, events: seq<Event>): (r: seq<Turn>)
    requires |states| == |events| + 1
    ensures |r| == |events|
  {
    seq(|events|, i requires 0 <= i < |events| => TurnOf(states[i], events[i], states[i + 1]))
  }

  /** A request was made at step `r`, and nothing was aborted before step `i`. */
  ghost predicate AskedSince(states: seq<State>, events: seq<Event>, r: nat, i: nat) {
    |states| == |events| + 1 && r < i < |states| && Asks(states[r], events[r]) && !states[i].aborted
  }

  /**
   * What has become before step `i` of a request made at step `r`: a pass that started at or after that step has
   * succeeded or is open, or one is due, or the newest refresh has failed and its retry loop or direct caller knows.
   */
  ghost predicate RequestKept(states: seq<State>, events: seq<Event>, r: nat, i: nat)
    requires AskedSince(states, events, r, i)
  {
    var turns, s := Turns(states, events), states[i];
    || Served(turns, r, i)
    || (InService(turns, r, i) && s.runs != [])
    || Due(s)
    || (LastFailed(s) && (|s.promises| - 1 in s.direct || RetryWillReact(s)))
  }

  ghost predicate KeptAfter(states: seq<State>, events: seq<Event>, r: nat, i: nat) {
    AskedSince(states, events, r, i) ==> RequestKept(states, events, r, i)
  }

  lemma KeptFirst(states: seq<State>, events: seq<Event>, r: nat)
    requires IsRun(states, events) && r < |events| && Asks(states[r], events[r])
    ensures KeptAfter(states, events, r, r + 1)
  {
    RunKeeps(states, events, r);
    assert Follows(states, events, r);
    AskIsTaken(states[r], events[r]);
    if Turns(states, events)[r].opens { OpensServes(Turns(states, events), r, r); }
  }

  lemma KeptStep(states: seq<State>, events: seq<Event>, r: nat, i: nat)
    requires IsRun(states, events) && r < i < |events| && KeptAfter(states, events, r, i)
    ensures KeptAfter(states, events, r, i + 1)
  {
    var s, e, turns := states[i], events[i], Turns(states, events);
    assert Follows(states, events, i);
    if AskedSince(states, events, r, i + 1) {
      RunKeeps(states, events, i + 1);
      RunKeeps(states, events, i);
      GoesOn(s, e);
      if Served(turns, r, i) {
        ServedStays(turns, r, i);
      } else {
        if turns[i].opens { OpensServes(turns, r, i); }
        if InService(turns, r, i) { ServiceGoesOn(turns, r, i); }
      }
    }
  }

  /** No request is lost: what became of any scheduled or direct request at step `r`. */
  lemma {:induction false} NoRequestIsLost(states: seq<State>, events: seq<Event>, r: nat, i: nat)
    requires IsRun(states, events) && r < i < |states| && Asks(states[r], events[r])
    ensures KeptAfter(states, events, r, i)
    decreases i
  {
    if i == r + 1 {
      KeptFirst(states, events, r);
    } else {
      NoRequestIsLost(states, events, r, i - 1);
      KeptStep(states, events, r, i - 1);
    }
  }

  /** What a pass does to promises: it settles that of its own loop unless another pass follows. */
  lemma PassSettlesPromise(s: State, ok: bool, p: nat)
    requires Inv(s) && |s.runs| == 1 && p < |s.promises|
    ensures var t := PassSettles(s, 0, ok);
      && |t.promises| == |s.promises|
      && t.promises[p] == (if s.promises[p] != Pending || s.pending then s.promises[p]
                           else if ok || s.aborted then Resolved else Rejected)
      && (s.promises[p] == Pending && !s.pending ==> !t.pending)
  {
  }

  /** A promise settles once, at a pass of its own loop; it rejects iff that last pass failed, unless aborted. */
  lemma RejectsIffLastPassFailed(s: State, e: Event, p: nat)
    requires Enabled(s, e) && Inv(s) && p < |s.promises|
    ensures var t := Next(s, e);
      && p < |t.promises|
      && (t.promises[p] != s.promises[p] ==> s.promises[p] == Pending && e.OnPass? && !t.pending)
      && (s.promises[p] == Pending && t.promises[p] == Rejected <==>
            s.promises[p] == Pending && e.OnPass? && !e.ok && !s.pending && !s.aborted)
      && (t.promises[p] == Pending <==> s.promises[p] == Pending && (e.OnPass? ==> s.pending))
  {
    if e.OnPass? { PassSettlesPromise(s, e.ok, p); }
  }

  /** The branch behind the refresh loop that would start another refresh is never taken. */
  lemma TrailingRefreshUnreachable(s: State, ok: bool)
    requires Inv(s) && |s.runs| == 1
    ensures PassSettles(s, 0, ok).runs == [] ==> !PassSettles(s, 0, ok).pending
  {
  }

  lemma AbortStopsPasses(s: State, e: Event)
    requires Enabled(s, e) && Inv(s) && s.aborted
    ensures Starts(Next(s, e).requests) == Starts(s.requests) && !Next(s, e).pending
  {
  }

  // ----- "keep retrying until it succeeds" -----

  /** A scheduled request that has not been paid for still has its retry loop. */
  ghost predicate Followed(s: State) {
    s.aborted || DebtOf(s.scheduled) in {Unasked, Paid} || s.retries != []
  }

  /** Only the retry loop's own reaction to a settled promise can make it let go. */
  lemma OthersKeepFollowing(s: State, e: Event)
    requires Enabled(s, e) && Inv(s) && DebtsCovered(s) && Followed(s) && !e.OnRetry?
    ensures Followed(Next(s, e))
  {
    match e
    case OnChange =>
    case OnDirect => Appended(s.scheduled, Started, Started);
    case OnPass(_, ok) => Appended(s.scheduled, if ok then Succeeded else Failed, Started);
    case OnDelay(_) =>
    case OnAbort =>
  }

  /**
   * The retry loop lets go of an unpaid request exactly when it wakes up from an earlier refresh that
   * resolved while a newer one, started by a direct caller in between, has not succeeded.
   */
  lemma LetsGoIff(s: State, e: Event)
    requires Enabled(s, e) && Inv(s) && DebtsCovered(s) && Followed(s)
    ensures !Followed(Next(s, e)) <==>
      && e.OnRetry? && !s.aborted && !s.pending
      && s.promises[s.retries[0].promise] == Resolved && DebtOf(s.scheduled) in {Owed, Serving}
    ensures !Followed(Next(s, e)) ==>
      && s.retries[0].promise < |s.promises| - 1 && |s.promises| - 1 in s.direct
      && (s.runs != [] || LastFailed(s))
  {
    if !e.OnRetry? { OthersKeepFollowing(s, e); }
  }

  /** The reschedule in the `finally` block of the retry loop is needed: a request can arrive as a refresh resolves. */
  lemma RetryRescheduleReachable()
    ensures var s := Next(Next(Next(Init(), OnChange), OnPass(0, true)), OnChange);
      && s.pending && s.runs == [] && Enabled(s, OnRetry(0))
      && Next(s, OnRetry(0)).retries == [AwaitingRun(1)] && Next(s, OnRetry(0)).runs == [Run(1, false)]
  {
  }
}
