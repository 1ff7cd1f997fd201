/**
 * The work-items follower as a whole: the reconnect loop over its stream and the three coalescers it drives.
 * A whole refresh awaits the committed-count refresh among other fetches, so it can succeed only after that did.
 */
module WorkItemsFollower {
  import opened Options
  import C = CommittedCounts
  import F = FullRefresh
  import O = OpenCounts

  /** Where the reconnect loop is parked; `Joining` awaits the whole refresh of a new connection. */
  datatype Connection = Connecting | Joining(promise: nat) | Streaming | Waiting | Stopped

  datatype State = State(counts: C.State, open: O.State, full: F.State, connection: Connection)

  /** The count refresh that a whole refresh started now would await. */
  function Awaited(s: State): nat { C.Refresh(s.counts).1 }

  /** The part of a whole refresh that touches the coalescers. */
  function RefreshAll(s: State): State {
    if s.counts.aborted then s
    else s.(counts := C.RefreshDirectly(s.counts), open := O.Schedule(s.open))
  }

  /** The event path: both counts are scheduled and neither is awaited. */
  function Refresh(s: State): State {
    s.(counts := C.Schedule(s.counts), open := O.Schedule(s.open))
  }

  function Connected(s: State): State {
    if s.counts.aborted then s.(connection := Streaming)
    else RefreshAll(s).(connection := Joining(Awaited(s)))
  }

  function Disconnected(s: State): State {
    s.(connection := if s.counts.aborted then Stopped else Waiting)
  }

  function Joined(s: State, ok: bool): State {
    if ok then s.(connection := Streaming) else Disconnected(s)
  }

  function Reconnected(s: State): State {
    s.(connection := if s.counts.aborted then Stopped else Connecting)
  }

  function Visible(s: State): State {
    var t := if s.counts.aborted || s.full.retryLoop then s else RefreshAll(s);
    t.(full := F.Schedule(s.full, Awaited(s)))
  }

  function FullSettles(s: State, ok: bool): State
    requires s.full.passes != []
  {
    var t := if ok && s.full.pending && !s.full.aborted then RefreshAll(s) else s;
    t.(full := F.PassSettles(s.full, 0, ok, Awaited(s)))
  }

  function FullDelayOver(s: State): State
    requires s.full.passes != []
  {
    RefreshAll(s).(full := F.Continue(s.full, 0, Awaited(s)))
  }

  function Abort(s: State): State {
    s.(counts := C.Abort(s.counts), open := O.Abort(s.open), full := F.Abort(s.full))
  }

  datatype Event =
    | OnConnected
    | OnJoined(ok: bool)
    | OnChange
    | OnStreamEnd
    | OnReconnect
    | OnVisible
    | OnFull(ok: bool)
    | OnFullDelay
    | OnCountPass(ok: bool)
    | OnRetry
    | OnRetryDelay
    | OnOpenPass(ok: bool)
    | OnAbort

  predicate Succeeded(s: State, promise: nat) {
    promise < |s.counts.promises| && s.counts.promises[promise] == C.Resolved
  }

  /** Fetches other than the counts may fail a whole refresh at any time. */
  predicate Enabled(s: State, e: Event) {
    match e
    case OnConnected => s.connection == Connecting
    case OnJoined(ok) => s.connection.Joining? && (ok ==> Succeeded(s, s.connection.promise))
    case OnChange => s.connection == Streaming
    case OnStreamEnd => s.connection == Connecting || s.connection == Streaming
    case OnReconnect => s.connection == Waiting
    case OnVisible => s.connection != Stopped
    case OnFull(ok) => s.full.passes != [] && s.full.passes[0].Refreshing? && (ok ==> Succeeded(s, s.full.passes[0].promise))
    case OnFullDelay => s.full.passes != [] && s.full.passes[0] == F.Delaying
    case OnCountPass(ok) => C.Enabled(s.counts, C.OnPass(0, ok))
    case OnRetry => C.Enabled(s.counts, C.OnRetry(0))
    case OnRetryDelay => C.Enabled(s.counts, C.OnDelay(0))
    case OnOpenPass(_) => s.open.passes > 0
    case OnAbort => !s.counts.aborted
  }

  function Next(s: State, e: Event): State
    requires Enabled(s, e)
  {
    match e
    case OnConnected => Connected(s)
    case OnJoined(ok) => Joined(s, ok)
    case OnChange => Refresh(s)
    case OnStreamEnd => Disconnected(s)
    case OnReconnect => Reconnected(s)
    case OnVisible => Visible(s)
    case OnFull(ok) => FullSettles(s, ok)
    case OnFullDelay => FullDelayOver(s)
    case OnCountPass(ok) => s.(counts := C.PassSettles(s.counts, 0, ok))
    case OnRetry => s.(counts := C.RetryResumes(s.counts, 0))
    case OnRetryDelay => s.(counts := C.DelayOver(s.counts, 0))
    case OnOpenPass(ok) => s.(open := O.PassSettles(s.open, ok))
    case OnAbort => Abort(s)
  }

  function Start(aborted: bool): State {
    State(C.Init().(aborted := aborted), O.Init().(aborted := aborted), F.Init().(aborted := aborted),
          if aborted then Stopped else Connecting)
  }

  ghost predicate IsRun(states: seq<State>, events: seq<Event>) {
    && |states| == |events| + 1
    && (exists aborted :: states[0] == Start(aborted))
    && forall i :: 0 <= i < |events| ==> Follows(states, events, i)
  }

  ghost predicate Follows(states: seq<State>, events: seq<Event>, i: nat)
    requires |states| == |events| + 1 && i < |events|
  {
    Enabled(states[i], events[i]) && states[i + 1] == Next(states[i], events[i])
  }
}

/** Over every run of the follower a scheduled count refresh is served, retried by somebody, and soon paid. */
module WorkItemsFollowerProofs {
  import opened Options
  import opened Debts
  import opened DebtLogs
  import opened WorkItemsFollower
  import C = CommittedCounts
  import P = CommittedCountsProofs
  import F = FullRefresh
  import O = OpenCounts

  /** The full-refresh loop will refresh again unless count refresh `p` succeeds. */
  ghost predicate FullRetries(full: F.State, p: nat) {
    full.passes == [F.Delaying] || full.passes == [F.Refreshing(p)]
  }

  /** So will the reconnect loop, at its next connection. */
  ghost predicate ConnectionRetries(connection: Connection, p: nat) {
    connection == Connecting || connection == Waiting || connection == Joining(p)
  }

  /** Somebody reacts to the failure of the newest count refresh with another one. */
  ghost predicate HasRetrier(s: State)
    requires s.counts.promises != []
  {
    var newest := |s.counts.promises| - 1;
    P.RetryWillReact(s.counts) || FullRetries(s.full, newest) || ConnectionRetries(s.connection, newest)
  }

  /** The newest count refresh has a retrier until it has succeeded. */
  ghost predicate Watched(s: State) {
    !s.counts.aborted && s.counts.promises != [] && (s.counts.runs != [] || P.LastFailed(s.counts)) ==> HasRetrier(s)
  }

  ghost predicate CallsKnown(s: State) {
    && (s.connection.Joining? ==> s.connection.promise < |s.counts.promises|)
    && (s.full.passes != [] && s.full.passes[0].Refreshing? ==> s.full.passes[0].promise < |s.counts.promises|)
  }

  ghost predicate Inv(s: State) {
    && P.Inv(s.counts) && P.DebtsCovered(s.counts) && F.Inv(s.full) && O.Inv(s.open)
    && s.counts.aborted == s.full.aborted == s.open.aborted
    && CallsKnown(s) && Watched(s)
    && (s.connection == Stopped ==> s.counts.aborted)
  }

  // ----- what a step of the counts means for the rest -----

  /** Asking for a refresh leaves a live one, the newest, and hands out its promise. */
  lemma RefreshIsNewest(counts: C.State)
    requires P.Inv(counts) && !counts.aborted
    ensures var (t, p) := C.Refresh(counts);
      && t.promises != [] && p == |t.promises| - 1 && t.runs != [] && t.retries == counts.retries && !t.aborted
      && |counts.promises| <= |t.promises|
  {
  }

  lemma CountsKeep(s: State, e: C.Event, counts: C.State)
    requires P.Inv(s.counts) && P.DebtsCovered(s.counts) && C.Enabled(s.counts, e) && counts == C.Next(s.counts, e)
    ensures P.Inv(counts) && P.DebtsCovered(counts)
  {
    P.StepKeeps(s.counts, e);
    P.StepKeepsDebts(s.counts, e);
  }

  lemma RefreshAllKeeps(s: State)
    requires Inv(s) && !s.counts.aborted
    ensures var t := RefreshAll(s);
      && P.Inv(t.counts) && P.DebtsCovered(t.counts) && O.Inv(t.open) && !t.counts.aborted && !t.open.aborted
      && |s.counts.promises| <= |t.counts.promises|
      && t.counts.promises != [] && Awaited(s) == |t.counts.promises| - 1
  {
    CountsKeep(s, C.OnDirect, C.RefreshDirectly(s.counts));
    RefreshIsNewest(s.counts);
  }

  /** What a step that moves only the counts must keep. */
  ghost predicate StillWatched(s: State, counts: C.State) {
    |s.counts.promises| <= |counts.promises| && counts.aborted == s.counts.aborted && Watched(s.(counts := counts))
  }

  lemma ScheduleKeepsWatch(s: State)
    requires Inv(s)
    ensures StillWatched(s, C.Schedule(s.counts))
  {
    if !s.counts.aborted && !s.counts.retryLoop {
      assert P.Inv(s.counts);
    }
  }

  lemma PassKeepsWatch(s: State, ok: bool)
    requires Inv(s) && C.Enabled(s.counts, C.OnPass(0, ok))
    ensures StillWatched(s, C.PassSettles(s.counts, 0, ok))
  {
  }

  lemma RetryKeepsWatch(s: State)
    requires Inv(s) && C.Enabled(s.counts, C.OnRetry(0))
    ensures StillWatched(s, C.RetryResumes(s.counts, 0))
  {
  }

  lemma DelayKeepsWatch(s: State)
    requires Inv(s) && C.Enabled(s.counts, C.OnDelay(0))
    ensures StillWatched(s, C.DelayOver(s.counts, 0))
  {
  }

  lemma CountStepKeeps(s: State, e: C.Event)
    requires Inv(s) && C.Enabled(s.counts, e) && !e.OnAbort?
    requires StillWatched(s, C.Next(s.counts, e))
    ensures Inv(s.(counts := C.Next(s.counts, e)))
  {
    CountsKeep(s, e, C.Next(s.counts, e));
  }

  // ----- every step keeps the invariant -----

  lemma OpenKeeps(open: O.State, e: O.Event)
    requires O.Inv(open) && O.Enabled(open, e)
    ensures O.Inv(O.Next(open, e)) && (!e.OnAbort? ==> O.Next(open, e).aborted == open.aborted)
  {
  }

  lemma ConnectedKeeps(s: State)
    requires Inv(s) && s.connection == Connecting
    ensures Inv(Connected(s))
  {
    if !s.counts.aborted { RefreshAllKeeps(s); }
  }

  lemma VisibleKeeps(s: State)
    requires Inv(s)
    ensures Inv(Visible(s))
  {
    F.StepKeeps(s.full, F.OnVisible(Awaited(s)));
    if !s.counts.aborted && !s.full.retryLoop { RefreshAllKeeps(s); }
  }

  lemma FullSettlesKeeps(s: State, ok: bool)
    requires Inv(s) && Enabled(s, OnFull(ok))
    ensures Inv(FullSettles(s, ok))
  {
    F.StepKeeps(s.full, F.OnPass(0, ok, Awaited(s)));
    if ok && s.full.pending && !s.full.aborted { RefreshAllKeeps(s); }
  }

  lemma FullDelayKeeps(s: State)
    requires Inv(s) && Enabled(s, OnFullDelay)
    ensures Inv(FullDelayOver(s))
  {
    F.StepKeeps(s.full, F.OnDelay(0, Awaited(s)));
    if !s.counts.aborted { RefreshAllKeeps(s); }
  }

  lemma AbortKeeps(s: State)
    requires Inv(s) && !s.counts.aborted
    ensures Inv(Abort(s))
  {
    CountsKeep(s, C.OnAbort, C.Abort(s.counts));
    F.StepKeeps(s.full, F.OnAbort);
    OpenKeeps(s.open, O.OnAbort);
  }

  lemma ChangeKeeps(s: State)
    requires Inv(s)
    ensures Inv(Refresh(s))
  {
    ScheduleKeepsWatch(s);
    CountStepKeeps(s, C.OnChange);
    OpenKeeps(s.open, O.OnRequest);
  }

  predicate IsCountEvent(e: Event) { e.OnCountPass? || e.OnRetry? || e.OnRetryDelay? }

  predicate IsFullEvent(e: Event) { e.OnVisible? || e.OnFull? || e.OnFullDelay? }

  lemma CountEventKeeps(s: State, e: Event)
    requires Inv(s) && Enabled(s, e) && IsCountEvent(e)
    ensures Inv(Next(s, e))
  {
    match e
    case OnCountPass(ok) => PassKeepsWatch(s, ok); CountStepKeeps(s, C.OnPass(0, ok));
    case OnRetry => RetryKeepsWatch(s); CountStepKeeps(s, C.OnRetry(0));
    case OnRetryDelay => DelayKeepsWatch(s); CountStepKeeps(s, C.OnDelay(0));
  }

  lemma FullEventKeeps(s: State, e: Event)
    requires Inv(s) && Enabled(s, e) && IsFullEvent(e)
    ensures Inv(Next(s, e))
  {
    match e
    case OnVisible => VisibleKeeps(s);
    case OnFull(ok) => FullSettlesKeeps(s, ok);
    case OnFullDelay => FullDelayKeeps(s);
  }

  lemma OtherKeeps(s: State, e: Event)
    requires Inv(s) && Enabled(s, e) && !IsCountEvent(e) && !IsFullEvent(e)
    ensures Inv(Next(s, e))
  {
    match e
    case OnConnected => ConnectedKeeps(s);
    case OnChange => ChangeKeeps(s);
    case OnOpenPass(ok) => OpenKeeps(s.open, O.OnPass(ok));
    case OnAbort => AbortKeeps(s);
    case _ =>
  }

  lemma StepKeeps(s: State, e: Event)
    requires Inv(s) && Enabled(s, e)
    ensures Inv(Next(s, e))
  {
    if IsCountEvent(e) {
      CountEventKeeps(s, e);
    } else if IsFullEvent(e) {
      FullEventKeeps(s, e);
    } else {
      OtherKeeps(s, e);
    }
  }

  lemma StartIsOk(aborted: bool)
    ensures Inv(Start(aborted))
  {
  }

  lemma StepAt(states: seq<State>, events: seq<Event>, i: nat)
    requires IsRun(states, events) && i < |events| && Inv(states[i])
    ensures Inv(states[i + 1])
  {
    assert Follows(states, events, i);
    StepKeeps(states[i], events[i]);
  }

  lemma {:induction false} RunKeeps(states: seq<State>, events: seq<Event>, i: nat)
    requires IsRun(states, events) && i < |states|
    ensures Inv(states[i])
  {
    if i == 0 {
      var aborted :| states[0] == Start(aborted);
      StartIsOk(aborted);
    } else {
      RunKeeps(states, events, i - 1);
      StepAt(states, events, i - 1);
    }
  }

  // ----- who looks after a scheduled request -----

  ghost predicate Unpaid(s: State) { DebtOf(s.counts.scheduled) in {Owed, Serving} }

  /**
   * In every run a scheduled request that is not paid for is pending with a live loop, is being served, or
   * its last refresh failed and a live loop reacts to just that failure with another refresh: the retry loop,
   * the full-refresh loop, or the reconnect loop.
   */
  lemma LogDebtsAreLookedAfter(states: seq<State>, events: seq<Event>, i: nat)
    requires IsRun(states, events) && i < |states| && !states[i].counts.aborted && Unpaid(states[i])
    ensures var s := states[i];
      || (s.counts.pending && (s.counts.runs != [] || s.counts.retries != []))
      || (DebtOf(s.counts.scheduled) == Serving && s.counts.runs != [])
      || (P.LastFailed(s.counts) && HasRetrier(s))
  {
    RunKeeps(states, events, i);
  }

  /**
   * When the retry loop lets go of an unpaid request it has handed it over: the newest count refresh is live
   * or has failed, and the full-refresh loop or the reconnect loop reacts to its failure.
   */
  lemma RetryLoopHandsOver(s: State)
    requires Inv(s) && Enabled(s, OnRetry) && P.Followed(s.counts) && !P.Followed(Next(s, OnRetry).counts)
    ensures var t := Next(s, OnRetry);
      && t.counts.retries == [] && t.counts.promises != [] && (t.counts.runs != [] || P.LastFailed(t.counts))
      && (FullRetries(t.full, |t.counts.promises| - 1) || ConnectionRetries(t.connection, |t.counts.promises| - 1))
  {
    P.LetsGoIff(s.counts, C.OnRetry(0));
    StepKeeps(s, OnRetry);
  }

  // ----- a run in which that happens -----

  /** The fields that the run below moves. */
  ghost predicate At(s: State, connection: Connection, pending: bool, promises: seq<C.Promise>, runs: seq<C.Run>,
                     retries: seq<C.Retry>, full: seq<F.Pass>, fullPending: bool, debt: Debt)
  {
    && s.connection == connection && !s.counts.aborted && !s.full.aborted
    && s.counts.pending == pending && s.counts.promises == promises && s.counts.runs == runs && s.counts.retries == retries
    && s.counts.refresh == (if runs == [] then None else Some(runs[0].promise)) && s.counts.retryLoop == (retries != [])
    && s.full.passes == full && s.full.pending == fullPending && s.full.retryLoop == (full != [])
    && DebtOf(s.counts.scheduled) == debt
  }

  lemma Extended(states: seq<State>, events: seq<Event>, e: Event)
    requires IsRun(states, events) && Enabled(states[|events|], e)
    ensures IsRun(states + [Next(states[|events|], e)], events + [e])
  {
    var more, all := states + [Next(states[|events|], e)], events + [e];
    assert more[0] == states[0];
    forall i | 0 <= i < |all| ensures Follows(more, all, i) {
      if i < |events| {
        assert Follows(states, events, i);
      }
    }
  }

  lemma ConnectedWithCounts() returns (states: seq<State>, events: seq<Event>)
    ensures IsRun(states, events)
    ensures At(states[|events|], Joining(0), false, [C.Pending], [C.Run(0, false)], [], [], false, Unasked)
  {
    states, events := [Start(false)], [];
    Extended(states, events, OnConnected);
    states, events := states + [Next(states[0], OnConnected)], [OnConnected];
  }

  lemma ServedAndStreaming() returns (states: seq<State>, events: seq<Event>)
    ensures IsRun(states, events)
    ensures At(states[|events|], Streaming, false, [C.Resolved], [], [], [], false, Unasked)
  {
    states, events := ConnectedWithCounts();
    states, events := OneMore(states, events, OnCountPass(true));
    states, events := OneMore(states, events, OnJoined(true));
  }

  lemma OneMore(states: seq<State>, events: seq<Event>, e: Event) returns (more: seq<State>, all: seq<Event>)
    requires IsRun(states, events) && Enabled(states[|events|], e)
    ensures IsRun(more, all) && more[|all|] == Next(states[|events|], e)
  {
    Extended(states, events, e);
    more, all := states + [Next(states[|events|], e)], events + [e];
  }

  lemma FullRefreshLeftBehind() returns (states: seq<State>, events: seq<Event>)
    ensures IsRun(states, events)
    ensures At(states[|events|], Streaming, false, [C.Resolved, C.Resolved], [], [], [F.Refreshing(1)], true, Unasked)
  {
    states, events := ServedAndStreaming();
    states, events := OneMore(states, events, OnVisible);
    states, events := OneMore(states, events, OnCountPass(true));
    states, events := OneMore(states, events, OnVisible);
  }

  lemma ChangeWhileServing() returns (states: seq<State>, events: seq<Event>)
    ensures IsRun(states, events)
    ensures At(states[|events|], Streaming, true, [C.Resolved, C.Resolved, C.Resolved], [], [C.AwaitingRun(2)],
               [F.Refreshing(1)], true, Owed)
  {
    states, events := FullRefreshLeftBehind();
    states, events := OneMore(states, events, OnChange);
    states, events := OneMore(states, events, OnCountPass(true));
    states, events := OneMore(states, events, OnChange);
  }

  /** It happens: a full refresh takes up the request between the success of a count refresh and the retry loop's reaction. */
  lemma HandOverHappens() returns (states: seq<State>, events: seq<Event>)
    ensures IsRun(states, events)
    ensures var s := states[|events|];
      Enabled(s, OnRetry) && P.Followed(s.counts) && !P.Followed(Next(s, OnRetry).counts)
  {
    states, events := ChangeWhileServing();
    states, events := OneMore(states, events, OnFull(true));
  }

  // ----- how soon it is paid -----

  /** The next step of whoever looks after an unpaid request, when fetches succeed from now on. */
  ghost function Drive(s: State): Event {
    if s.counts.runs != [] then OnCountPass(true)
    else if s.counts.pending || (s.counts.promises != [] && P.RetryWillReact(s.counts)) then
      if s.counts.retries != [] && s.counts.retries[0].Delaying? then OnRetryDelay else OnRetry
    else if s.counts.promises != [] && FullRetries(s.full, |s.counts.promises| - 1) then
      if s.full.passes[0] == F.Delaying then OnFullDelay else OnFull(false)
    else match s.connection
      case Connecting => OnConnected
      case Waiting => OnReconnect
      case _ => OnJoined(false)
  }

  /** How many such steps are left at most. */
  ghost function StepsLeft(s: State): nat {
    if s.counts.runs != [] then if s.counts.pending then 2 else 1
    else if s.counts.pending || (s.counts.promises != [] && P.RetryWillReact(s.counts)) then
      if s.counts.retries != [] && s.counts.retries[0].Delaying? then 2 else 3
    else if s.counts.promises != [] && FullRetries(s.full, |s.counts.promises| - 1) then
      if s.full.passes[0] == F.Delaying then 2 else 3
    else match s.connection
      case Connecting => 2
      case Waiting => 3
      case _ => 4
  }

  ghost predicate PaidOrCloser(s: State, t: State) {
    !t.counts.aborted && (DebtOf(t.counts.scheduled) == Paid || (Unpaid(t) && StepsLeft(t) < StepsLeft(s)))
  }

  lemma PassPays(s: State)
    requires Inv(s) && !s.counts.aborted && Unpaid(s) && s.counts.runs != []
    ensures Enabled(s, OnCountPass(true)) && PaidOrCloser(s, Next(s, OnCountPass(true)))
  {
    assert DebtOf(Log(Log(s.counts.scheduled, Debts.Succeeded), Started)) ==
           After(After(DebtOf(s.counts.scheduled), Debts.Succeeded), Started);
  }

  /** A refresh that starts serves the request. */
  lemma StartServes(counts: C.State)
    requires !counts.aborted && counts.runs == [] && counts.refresh.None? && DebtOf(counts.scheduled) == Owed
    ensures var t := C.Refresh(counts).0;
      t.runs != [] && !t.pending && !t.aborted && DebtOf(t.scheduled) == Serving
  {
    assert DebtOf(Log(counts.scheduled, Started)) == Serving;
  }

  lemma RetryPays(s: State)
    requires Inv(s) && !s.counts.aborted && Unpaid(s) && s.counts.runs == []
    requires s.counts.pending || (s.counts.promises != [] && P.RetryWillReact(s.counts))
    ensures Enabled(s, Drive(s)) && PaidOrCloser(s, Next(s, Drive(s)))
  {
    if s.counts.retries[0].Delaying? {
      StartServes(s.counts);
    } else if s.counts.promises[s.counts.retries[0].promise] == C.Resolved {
      StartServes(s.counts.(retryLoop := false, retries := [C.Delaying(true)]));
    }
  }

  lemma DirectPays(s: State)
    requires Inv(s) && !s.counts.aborted && Unpaid(s) && s.counts.runs == [] && !s.counts.pending
    requires !P.RetryWillReact(s.counts)
    ensures Enabled(s, Drive(s)) && PaidOrCloser(s, Next(s, Drive(s)))
  {
    StartServes(s.counts);
  }

  lemma DrivePays(s: State)
    requires Inv(s) && !s.counts.aborted && Unpaid(s)
    ensures Enabled(s, Drive(s)) && PaidOrCloser(s, Next(s, Drive(s)))
  {
    if s.counts.runs != [] {
      PassPays(s);
    } else if s.counts.pending || (s.counts.promises != [] && P.RetryWillReact(s.counts)) {
      RetryPays(s);
    } else {
      DirectPays(s);
    }
  }

  /** The first `n` of these steps, or fewer if nothing is left to pay. */
  ghost function Driven(s: State, n: nat): State
    decreases n
  {
    if n == 0 || !Unpaid(s) || !Enabled(s, Drive(s)) then s else Driven(Next(s, Drive(s)), n - 1)
  }

  lemma DriveOnce(s: State)
    requires Inv(s) && !s.counts.aborted && Unpaid(s)
    ensures Enabled(s, Drive(s)) && Inv(Next(s, Drive(s))) && PaidOrCloser(s, Next(s, Drive(s)))
  {
    DrivePays(s);
    StepKeeps(s, Drive(s));
  }

  lemma {:induction false} PaidWithin(s: State, n: nat)
    requires Inv(s) && !s.counts.aborted && Unpaid(s) && StepsLeft(s) <= n
    ensures DebtOf(Driven(s, n).counts.scheduled) == Paid
    decreases n
  {
    DriveOnce(s);
    if Unpaid(Next(s, Drive(s))) {
      PaidWithin(Next(s, Drive(s)), n - 1);
    }
  }

  /** If fetches succeed from now on, the loops in charge pay every scheduled request within four of their steps. */
  lemma PaidWithinFourSteps(states: seq<State>, events: seq<Event>, i: nat)
    requires IsRun(states, events) && i < |states| && !states[i].counts.aborted && Unpaid(states[i])
    ensures DebtOf(Driven(states[i], 4).counts.scheduled) == Paid
  {
    RunKeeps(states, events, i);
    PaidWithin(states[i], 4);
  }
}
