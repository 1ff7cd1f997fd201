/**
 * The committed-pull-requests-count coalescer: a single-flight refresh loop that hands out a
 * promise, and a retry loop around it for requests nobody awaits.
 */
module CommittedCounts {
  import opened Options
  import opened Debts
  import opened DebtLogs

  datatype Promise = Pending | Resolved | Rejected

  /** A live refresh loop, parked at the `await` of its current pass. */
  datatype Run = Run(promise: nat, lastFailed: bool)

  /** A live retry loop, parked at the `await` of a promise or of the retry delay. */
  datatype Retry = AwaitingRun(promise: nat) | Delaying(woken: bool)

  /**
   * `direct`: the promises handed to callers that await the refresh themselves.
   * `requests` follows every request and `scheduled` the ones of the event path, each with all passes.
   */
  datatype State = State(
    aborted: bool,
    pending: bool,
    refresh: Option<nat>,
    retryLoop: bool,
    promises: seq<Promise>,
    runs: seq<Run>,
    retries: seq<Retry>,
    direct: set<nat>,
    requests: Log,
    scheduled: Log)

  function Without<T>(xs: seq<T>, i: nat): seq<T>
    requires i < |xs|
  {
    xs[..i] + xs[i + 1..]
  }

  function Note(s: State, signal: Signal): State {
    s.(requests := Log(s.requests, signal), scheduled := Log(s.scheduled, signal))
  }

  /** From the head of the refresh loop to the next pass, or through the code behind the loop. */
  function Continue(s: State, i: nat): State
    requires i < |s.runs| && s.runs[i].promise < |s.promises|
  {
    if s.pending && !s.aborted then
      Note(s.(pending := false), Started)
    else
      var run := s.runs[i];
      var outcome := if !s.aborted && run.lastFailed then Rejected else Resolved;
      s.(refresh := None,
         pending := s.pending && !s.aborted,
         promises := s.promises[run.promise := outcome],
         runs := Without(s.runs, i))
  }

  /** Asks for a pass; the promise of the loop that will make it comes with the new state. */
  function Refresh(s: State): (State, nat) {
    if s.aborted then
      (s.(promises := s.promises + [Resolved]), |s.promises|)
    else if s.refresh.Some? then
      (s.(pending := true, requests := Log(s.requests, Asked)), s.refresh.value)
    else
      (StartRun(s.(pending := true, requests := Log(s.requests, Asked))), |s.promises|)
  }

  /** A new refresh loop: its body runs up to its first `await` before the handle is assigned. */
  function StartRun(s: State): State {
    var p := |s.promises|;
    var t := s.(promises := s.promises + [Pending], runs := s.runs + [Run(p, false)]);
    Continue(t, |s.runs|).(refresh := Some(p))
  }

  /** A caller that awaits the refresh itself. */
  function RefreshDirectly(s: State): State {
    var (t, p) := Refresh(s);
    t.(direct := t.direct + {p})
  }

  /** The head of the retry loop `j`. */
  function ContinueRetry(s: State, j: nat): State
    requires j < |s.retries| && !s.aborted
  {
    var (t, p) := Refresh(s);
    t.(retries := s.retries[j := AwaitingRun(p)])
  }

  function Schedule(s: State): State {
    if s.aborted then s
    else
      var t := s.(scheduled := Log(s.scheduled, Asked));
      if t.retryLoop then t.(pending := true, requests := Log(t.requests, Asked))
      else StartRetryLoop(t)
  }

  function StartRetryLoop(s: State): State
    requires !s.aborted
  {
    ContinueRetry(s.(retries := s.retries + [Delaying(true)]), |s.retries|).(retryLoop := true)
  }

  /** The `finally` block of the retry loop. */
  function CloseRetry(s: State, j: nat): State
    requires j < |s.retries|
  {
    var t := s.(retryLoop := false, retries := Without(s.retries, j));
    if t.pending && !t.aborted then StartRetryLoop(t) else t
  }

  function PassSettles(s: State, i: nat, ok: bool): State
    requires i < |s.runs| && s.runs[i].promise < |s.promises|
  {
    Continue(Note(s.(runs := s.runs[i := s.runs[i].(lastFailed := !ok)]), if ok then Succeeded else Failed), i)
  }

  function RetryResumes(s: State, j: nat): State
    requires j < |s.retries| && s.retries[j].AwaitingRun? && s.retries[j].promise < |s.promises|
  {
    if s.promises[s.retries[j].promise] == Rejected
    then s.(retries := s.retries[j := Delaying(s.aborted)])
    else CloseRetry(s, j)
  }

  function DelayOver(s: State, j: nat): State
    requires j < |s.retries|
  {
    if s.aborted then CloseRetry(s, j) else ContinueRetry(s, j)
  }

  function Wake(r: Retry): Retry {
    if r.Delaying? then Delaying(true) else r
  }

  function WakeAll(rs: seq<Retry>): (r: seq<Retry>)
    ensures |r| == |rs| && forall i :: 0 <= i < |rs| ==> r[i] == Wake(rs[i])
  {
    seq(|rs|, i requires 0 <= i < |rs| => Wake(rs[i]))
  }

  function Abort(s: State): State {
    s.(aborted := true, pending := false, retries := WakeAll(s.retries))
  }

  datatype Event = OnChange | OnDirect | OnPass(run: nat, ok: bool) | OnRetry(retry: nat) | OnDelay(retry: nat) | OnAbort

  predicate Enabled(s: State, e: Event) {
    match e
    case OnPass(i, _) => i < |s.runs| && s.runs[i].promise < |s.promises|
    case OnRetry(j) => j < |s.retries| && s.retries[j].AwaitingRun? && s.retries[j].promise < |s.promises|
                       && s.promises[s.retries[j].promise] != Pending
    case OnDelay(j) => j < |s.retries| && s.retries[j].Delaying?
    case OnAbort => !s.aborted
    case _ => true
  }

  function Next(s: State, e: Event): State
    requires Enabled(s, e)
  {
    match e
    case OnChange => Schedule(s)
    case OnDirect => RefreshDirectly(s)
    case OnPass(i, ok) => PassSettles(s, i, ok)
    case OnRetry(j) => RetryResumes(s, j)
    case OnDelay(j) => DelayOver(s, j)
    case OnAbort => Abort(s)
  }

  function Init(): State {
    State(false, false, None, false, [], [], [], {}, Empty, Empty)
  }

  ghost predicate IsRun(states: seq<State>, events: seq<Event>) {
    && |states| == |events| + 1 && states[0] == Init()
    && forall i :: 0 <= i < |events| ==> Follows(states, events, i)
  }

  ghost predicate Follows(states: seq<State>, events: seq<Event>, i: nat)
    requires |states| == |events| + 1 && i < |events|
  {
    Enabled(states[i], events[i]) && states[i + 1] == Next(states[i], events[i])
  }
}
