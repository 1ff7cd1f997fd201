/**
 * Repository-membership follower as a transition system. One step is one
 * run-to-completion slice of `followRepositoryMembershipLive`, that is, the code
 * between two `await`s; the environment picks the next step.
 */
module MembershipFollower {
  import opened Options

  const CATCH_UP_RETRY_MAX_DELAY_MS: nat := 30_000

  datatype Config = Config(retryDelayMs: nat, warningGraceMs: nat)

  datatype DisconnectReason = Complete | StreamEnded | Stale | Aborted | Failed

  /** How one stream attempt settled. */
  datatype Outcome =
    | EndedComplete
    | EndedQuietly
    | ThrewStale(heartbeatAgeMs: nat)
    | ThrewAbort
    | ThrewError

  /** Everything the follower makes visible: diagnostics, fetches, cancels and the warning. */
  datatype Entry =
    | Attempt(generation: nat)
    | Reconnect(generation: nat)
    | Connect(generation: nat)
    | WentStale(generation: nat, ageMs: nat)
    | Disconnect(generation: nat, reason: DisconnectReason, heartbeatAgeMs: Option<int>)
    | CatchUpFailure(generation: nat, waitMs: nat)
    | Requested(generation: nat)
    | FetchStarted(generation: nat)
    | FetchSucceeded(generation: nat)
    | FetchRejected(generation: nat)
    | CancelFetches
    | WarningShown(unavailable: bool)

  /** Newest entry outermost. */
  datatype Log = Empty | Log(before: Log, entry: Entry)

  /**
   * A live activation of the catch-up loop, named by the `await` it is parked at.
   * `Running` occurs only inside a slice. A backoff wait is woken by an abort or
   * by a newer generation.
   */
  datatype Pass =
    | Running
    | Fetching(generation: nat)
    | BackingOff(generation: nat, until: nat, woken: bool)

  /** `warningTimer`: firing does not reset the handle, so a fired timer is never re-armed. */
  datatype WarningTimer = Disarmed | Armed(deadline: nat, fired: bool)

  /** Where the reconnect loop is parked. */
  datatype Connection =
    | Streaming(markedHealthy: bool)
    | Waiting(until: nat, woken: bool)
    | Stopped

  datatype State = State(
    now: nat,
    aborted: bool,
    generation: nat,
    transportHealthy: bool,
    lastActivityAt: Option<nat>,
    warningTimer: WarningTimer,
    unavailable: bool,
    catchUpInFlight: bool,
    catchUpPending: bool,
    catchUpGeneration: nat,
    catchUpRunningGeneration: nat,
    catchUpRetryDelayMs: nat,
    passes: seq<Pass>,
    connection: Connection,
    log: Log)

  /** The part of the state that no catch-up code may touch. */
  ghost predicate SameTransport(s: State, t: State) {
    && t.now == s.now && t.aborted == s.aborted && t.generation == s.generation
    && t.transportHealthy == s.transportHealthy && t.lastActivityAt == s.lastActivityAt
    && t.warningTimer == s.warningTimer && t.unavailable == s.unavailable && t.connection == s.connection
  }

  function Min(a: nat, b: nat): nat { if a <= b then a else b }

  // ----- transport health -----

  function SetUnavailable(s: State, next: bool): State {
    if s.unavailable == next then s
    else s.(unavailable := next, log := Log(s.log, WarningShown(next)))
  }

  function MarkTransportHealthy(s: State, forGeneration: nat): State {
    if forGeneration != s.generation || s.aborted then s
    else SetUnavailable(s.(transportHealthy := true, lastActivityAt := Some(s.now), warningTimer := Disarmed), false)
  }

  function MarkTransportUnhealthy(cfg: Config, s: State): State {
    s.(transportHealthy := false,
       warningTimer := if s.warningTimer.Disarmed? then Armed(s.now + cfg.warningGraceMs, false) else s.warningTimer)
  }

  // ----- catch-up -----

  /** The `finally` block of the loop: the activation dies and the handle is cleared. */
  function ClosePass(s: State, i: nat): State
    requires i < |s.passes|
  {
    s.(catchUpInFlight := false, catchUpRunningGeneration := 0, passes := s.passes[..i] + s.passes[i + 1..])
  }

  predicate PassIsDue(s: State) {
    s.catchUpPending && !s.aborted && s.catchUpGeneration == s.generation
  }

  /** The only activation consumes the pending flag and opens one fetch for the current generation. */
  ghost predicate OpensFetch(s: State, t: State) {
    && t.passes == [Fetching(s.generation)] && t.catchUpRunningGeneration == s.generation
    && !t.catchUpPending && t.catchUpInFlight == s.catchUpInFlight
    && t.log == Log(s.log, FetchStarted(s.generation))
  }

  /** The only activation ends; whatever it leaves pending, only an abort can leave behind. */
  ghost predicate Closes(s: State, t: State) {
    && t.passes == [] && t.catchUpRunningGeneration == 0 && !t.catchUpInFlight
    && (t.catchUpPending ==> s.aborted && s.catchUpPending)
    && t.log == s.log
  }

  /** From the head of the `while` loop to the next `await`. */
  function RunPass(s: State, i: nat): (t: State)
    requires i < |s.passes|
    ensures SameTransport(s, t)
    ensures t.catchUpGeneration == s.catchUpGeneration && t.catchUpRetryDelayMs == s.catchUpRetryDelayMs
    ensures |s.passes| == 1 ==> if PassIsDue(s) then OpensFetch(s, t) else Closes(s, t)
    decreases s.catchUpPending
  {
    if !s.catchUpPending || s.aborted then
      ClosePass(s, i)
    else
      var t := s.(catchUpPending := false, catchUpRunningGeneration := s.catchUpGeneration);
      if t.catchUpGeneration != t.generation then
        RunPass(t, i)
      else
        t.(passes := t.passes[i := Fetching(t.generation)], log := Log(t.log, FetchStarted(t.generation)))
  }

  /** A request that joins the live activation: it is pending, and an older generation's fetch is cancelled. */
  ghost predicate Joins(s: State, g: nat, t: State) {
    && t.catchUpPending && t.catchUpGeneration == g
    && t.catchUpInFlight && t.passes == s.passes && t.catchUpRunningGeneration == s.catchUpRunningGeneration
    && t.log == if s.catchUpRunningGeneration < g then Log(Log(s.log, Requested(g)), CancelFetches) else Log(s.log, Requested(g))
  }

  /** A request that starts an activation: one fetch for its generation is open, and nothing is left pending. */
  ghost predicate StartsPass(s: State, g: nat, t: State) {
    && !t.catchUpPending && t.catchUpGeneration == g
    && t.catchUpInFlight && t.passes == s.passes + [Fetching(g)] && t.catchUpRunningGeneration == g
    && t.log == Log(Log(s.log, Requested(g)), FetchStarted(g))
  }

  function ScheduleCatchUp(s: State, forGeneration: nat): (t: State)
    ensures SameTransport(s, t) && t.catchUpRetryDelayMs == s.catchUpRetryDelayMs
    ensures if s.aborted || forGeneration != s.generation then t == s
            else if s.catchUpInFlight then Joins(s, forGeneration, t)
            else StartsPass(s, forGeneration, t)
  {
    if s.aborted || forGeneration != s.generation then s
    else
      var t := s.(catchUpPending := true, catchUpGeneration := forGeneration, log := Log(s.log, Requested(forGeneration)));
      if t.catchUpInFlight then
        if forGeneration > t.catchUpRunningGeneration then t.(log := Log(t.log, CancelFetches)) else t
      else
        // The loop body runs up to its first `await` before the handle is assigned.
        RunPass(t.(passes := t.passes + [Running]), |t.passes|).(catchUpInFlight := true)
  }

  function FetchOk(cfg: Config, s: State, i: nat): State
    requires i < |s.passes| && s.passes[i].Fetching?
  {
    RunPass(s.(catchUpRetryDelayMs := cfg.retryDelayMs,
               passes := s.passes[i := Running],
               log := Log(s.log, FetchSucceeded(s.passes[i].generation))), i)
  }

  function FetchFailed(s: State, i: nat, cancelled: bool): State
    requires i < |s.passes| && s.passes[i].Fetching?
  {
    var g := s.passes[i].generation;
    var t := s.(passes := s.passes[i := Running], log := Log(s.log, FetchRejected(g)));
    if t.aborted then
      ClosePass(t, i)
    else if cancelled || g != t.generation then
      RunPass(t.(catchUpPending := t.catchUpPending || t.catchUpGeneration == t.generation), i)
    else
      t.(passes := t.passes[i := BackingOff(g, t.now + t.catchUpRetryDelayMs, false)],
         log := Log(t.log, CatchUpFailure(g, t.catchUpRetryDelayMs)))
  }

  function BackoffOver(s: State, i: nat): State
    requires i < |s.passes| && s.passes[i].BackingOff?
  {
    var g := s.passes[i].generation;
    var t := s.(passes := s.passes[i := Running]);
    if g == t.generation && !t.aborted then
      RunPass(t.(catchUpRetryDelayMs := Min(t.catchUpRetryDelayMs * 2, CATCH_UP_RETRY_MAX_DELAY_MS),
                 catchUpPending := true), i)
    else if !t.aborted && t.catchUpGeneration == t.generation then
      RunPass(t.(catchUpPending := true), i)
    else
      RunPass(t, i)
  }

  // ----- the reconnect loop -----

  function Wake(p: Pass): Pass {
    if p.BackingOff? then p.(woken := true) else p
  }

  function WakeAll(passes: seq<Pass>): (r: seq<Pass>)
    ensures |r| == |passes|
    ensures forall i :: 0 <= i < |passes| ==> r[i] == Wake(passes[i])
  {
    seq(|passes|, i requires 0 <= i < |passes| => Wake(passes[i]))
  }

  function BeginAttempt(cfg: Config, s: State): State {
    var g := s.generation + 1;
    var started := Log(s.log, Attempt(g));
    s.(generation := g,
       catchUpRetryDelayMs := cfg.retryDelayMs,
       lastActivityAt := None,
       passes := WakeAll(s.passes),
       connection := Streaming(false),
       log := if g > 1 then Log(Log(started, Reconnect(g)), CancelFetches) else started)
  }

  /** The outer `finally`: the timer is cleared and the visibility listener removed. */
  function Stop(s: State): State {
    s.(warningTimer := Disarmed, connection := Stopped)
  }

  function ReconnectLoop(cfg: Config, s: State): State {
    if s.aborted then Stop(s) else BeginAttempt(cfg, s)
  }

  function Start(cfg: Config, now: nat, aborted: bool): State {
    var s := State(now, aborted, 0, false, None, Disarmed, false,
                   false, false, 0, 0, cfg.retryDelayMs, [], Stopped, Empty);
    ReconnectLoop(cfg, MarkTransportUnhealthy(cfg, s))
  }

  function ReasonOf(outcome: Outcome): DisconnectReason {
    match outcome
    case EndedComplete => Complete
    case EndedQuietly => StreamEnded
    case ThrewStale(_) => Stale
    case ThrewAbort => Aborted
    case ThrewError => Failed
  }

  function HeartbeatAge(s: State, outcome: Outcome, markedHealthy: bool): Option<int> {
    if outcome.ThrewStale? then Some(outcome.heartbeatAgeMs)
    else if markedHealthy && s.lastActivityAt.Some? then Some(s.now - s.lastActivityAt.value)
    else None
  }

  function StreamSettled(cfg: Config, s: State, outcome: Outcome): State
    requires s.connection.Streaming?
  {
    var g := s.generation;
    if s.aborted then
      Stop(s)
    else
      var t := if outcome.ThrewStale? then s.(log := Log(s.log, WentStale(g, outcome.heartbeatAgeMs))) else s;
      var age := HeartbeatAge(s, outcome, s.connection.markedHealthy);
      var u := t.(log := Log(t.log, Disconnect(g, ReasonOf(outcome), age)));
      MarkTransportUnhealthy(cfg, u).(connection := Waiting(s.now + cfg.retryDelayMs, false))
  }

  // ----- callbacks and signals -----

  function Connected(s: State, forGeneration: nat): State
    requires forGeneration == s.generation ==> s.connection.Streaming?
  {
    if forGeneration != s.generation then s
    else
      var t := ScheduleCatchUp(MarkTransportHealthy(s, forGeneration).(connection := Streaming(true)), forGeneration);
      t.(log := Log(t.log, Connect(forGeneration)))
  }

  function Changed(s: State, forGeneration: nat): State {
    if forGeneration != s.generation then s
    else ScheduleCatchUp(s.(lastActivityAt := Some(s.now)), forGeneration)
  }

  function Activity(s: State, forGeneration: nat): State {
    if forGeneration != s.generation then s else s.(lastActivityAt := Some(s.now))
  }

  function WarningTimerFires(s: State): State
    requires s.warningTimer.Armed?
  {
    var t := s.(warningTimer := s.warningTimer.(fired := true));
    if !t.aborted && !t.transportHealthy then SetUnavailable(t, true) else t
  }

  function Abort(s: State): State {
    s.(aborted := true,
       passes := WakeAll(s.passes),
       connection := if s.connection.Waiting? then s.connection.(woken := true) else s.connection)
  }

  // ----- the transition system -----

  datatype Event =
    | OnConnected(forGeneration: nat)
    | OnChange(forGeneration: nat)
    | OnActivity(forGeneration: nat)
    | OnSettled(outcome: Outcome)
    | OnReconnectWait
    | OnFetchOk(pass: nat)
    | OnFetchFailed(pass: nat, cancelled: bool)
    | OnBackoffOver(pass: nat)
    | OnWarningTimer
    | OnVisibilityChange(visible: bool)
    | OnAbort
    | Elapse(ms: nat)

  /** Callbacks of a stream and of the page. */
  predicate IsCallback(e: Event) { e.OnConnected? || e.OnChange? || e.OnActivity? || e.OnVisibilityChange? }

  /** Slices of the catch-up loop. */
  predicate IsSlice(e: Event) { e.OnFetchOk? || e.OnFetchFailed? || e.OnBackoffOver? }

  /**
   * Stream callbacks of the current attempt happen only before that attempt
   * settles, and it connects at most once; callbacks of older attempts may
   * arrive at any time. A timer fires no earlier than its deadline.
   */
  predicate Enabled(s: State, e: Event) {
    match e
    case OnConnected(g) => g < s.generation || (g == s.generation && s.connection == Streaming(false))
    case OnChange(g) => g < s.generation || (g == s.generation && s.connection.Streaming?)
    case OnActivity(g) => g < s.generation || (g == s.generation && s.connection.Streaming?)
    case OnSettled(_) => s.connection.Streaming?
    case OnReconnectWait => s.connection.Waiting? && (s.connection.woken || s.connection.until <= s.now)
    case OnFetchOk(i) => i < |s.passes| && s.passes[i].Fetching?
    case OnFetchFailed(i, _) => i < |s.passes| && s.passes[i].Fetching?
    case OnBackoffOver(i) => i < |s.passes| && s.passes[i].BackingOff? && (s.passes[i].woken || s.passes[i].until <= s.now)
    case OnWarningTimer => s.warningTimer.Armed? && !s.warningTimer.fired && s.warningTimer.deadline <= s.now
    case OnVisibilityChange(_) => !s.connection.Stopped?
    case OnAbort => !s.aborted
    case Elapse(_) => true
  }

  function Next(cfg: Config, s: State, e: Event): State
    requires Enabled(s, e)
  {
    match e
    case OnConnected(g) => Connected(s, g)
    case OnChange(g) => Changed(s, g)
    case OnActivity(g) => Activity(s, g)
    case OnSettled(outcome) => StreamSettled(cfg, s, outcome)
    case OnReconnectWait => ReconnectLoop(cfg, s)
    case OnFetchOk(i) => FetchOk(cfg, s, i)
    case OnFetchFailed(i, cancelled) => FetchFailed(s, i, cancelled)
    case OnBackoffOver(i) => BackoffOver(s, i)
    case OnWarningTimer => WarningTimerFires(s)
    case OnVisibilityChange(visible) => if visible then ScheduleCatchUp(s, s.generation) else s
    case OnAbort => Abort(s)
    case Elapse(ms) => s.(now := s.now + ms)
  }

  /** A run from the start of the follower: any interleaving of enabled events. */
  ghost predicate IsRun(cfg: Config, states: seq<State>, events: seq<Event>) {
    && |states| == |events| + 1
    && (exists now, aborted :: states[0] == Start(cfg, now, aborted))
    && forall i :: 0 <= i < |events| ==> Follows(cfg, states, events, i)
  }

  ghost predicate Follows(cfg: Config, states: seq<State>, events: seq<Event>, i: nat)
    requires |states| == |events| + 1 && i < |events|
  {
    IsStep(cfg, states[i], events[i], states[i + 1])
  }

  ghost predicate IsStep(cfg: Config, s: State, e: Event, t: State) {
    Enabled(s, e) && t == Next(cfg, s, e)
  }
}
