/** The diagnostic trace of every run, and the waits between failed catch-ups. */
module MembershipTrace {
  import opened Options
  import opened MembershipFollower
  import MembershipCatchUp
  import MembershipTransport

  // ----- an acceptor for well-formed traces -----

  datatype Phase = Gone | Announcing | Connecting | Open

  datatype Trace = Trace(generation: nat, phase: Phase, stale: bool)

  function Advance(t: Trace, e: Entry): Option<Trace> {
    match e
    case Attempt(g) =>
      if t.phase == Gone && g == t.generation + 1
      then Some(Trace(g, if g == 1 then Connecting else Announcing, false)) else None
    case Reconnect(g) =>
      if t.phase == Announcing && g == t.generation then Some(t.(phase := Connecting)) else None
    case Connect(g) =>
      if t.phase == Connecting && g == t.generation then Some(t.(phase := Open)) else None
    case WentStale(g, _) =>
      if t.phase in {Connecting, Open} && g == t.generation && !t.stale then Some(t.(stale := true)) else None
    case Disconnect(g, reason, age) =>
      if t.phase in {Connecting, Open} && g == t.generation
         && (reason == Stale <==> t.stale) && (age.Some? ==> t.stale || t.phase == Open)
      then Some(Trace(g, Gone, false)) else None
    case CatchUpFailure(g, _) => if t.phase != Announcing && g == t.generation then Some(t) else None
    case FetchStarted(g) => if t.phase != Announcing && g == t.generation then Some(t) else None
    case _ => Some(t)
  }

  function Accept(log: Log): Option<Trace> {
    if log.Empty? then Some(Trace(0, Gone, false))
    else
      var t := Accept(log.before);
      if t.None? then None else Advance(t.value, log.entry)
  }

  ghost predicate Traced(s: State) {
    var t := Accept(s.log);
    && t.Some? && t.value.generation == s.generation && !t.value.stale
    && match s.connection
       case Streaming(marked) => t.value.phase == if marked then Open else Connecting
       case Waiting(_, _) => t.value.phase == Gone
       case Stopped => t.value.phase != Announcing
  }

  // ----- backoff -----

  function Pow2(k: nat): nat { if k == 0 then 1 else 2 * Pow2(k - 1) }

  /** The wait after `k` earlier failures in a row. */
  function WaitFor(base: nat, k: nat): nat {
    if k == 0 then base else Min(base * Pow2(k), CATCH_UP_RETRY_MAX_DELAY_MS)
  }

  lemma WaitForNext(base: nat, k: nat)
    ensures WaitFor(base, k + 1) == Min(WaitFor(base, k) * 2, CATCH_UP_RETRY_MAX_DELAY_MS)
  {
    assert base * Pow2(k + 1) == 2 * (base * Pow2(k));
  }

  /** Failed catch-ups since the last success or the start of the current attempt. */
  function FailuresInARow(log: Log): nat {
    if log.Empty? then 0 else
      match log.entry
      case CatchUpFailure(_, _) => FailuresInARow(log.before) + 1
      case FetchSucceeded(_) => 0
      case Attempt(_) => 0
      case _ => FailuresInARow(log.before)
  }

  ghost predicate WaitsExact(base: nat, log: Log) {
    log.Log? ==>
      && WaitsExact(base, log.before)
      && (log.entry.CatchUpFailure? ==> log.entry.waitMs == WaitFor(base, FailuresInARow(log.before)))
  }

  ghost predicate Backoffs(cfg: Config, s: State)
    requires MembershipCatchUp.SingleFlight(s)
  {
    var k := FailuresInARow(s.log);
    && WaitsExact(cfg.retryDelayMs, s.log)
    && (!s.aborted ==>
          if s.passes != [] && s.passes[0].BackingOff? && s.passes[0].generation == s.generation
          then k > 0 && s.catchUpRetryDelayMs == WaitFor(cfg.retryDelayMs, k - 1)
          else s.catchUpRetryDelayMs == WaitFor(cfg.retryDelayMs, k))
  }

  // ----- every step keeps the trace well formed -----

  /** One turn of the acceptor. */
  lemma Accepted(before: Log, e: Entry)
    ensures Accept(before).Some? ==> Accept(Log(before, e)) == Advance(Accept(before).value, e)
  {
  }

  lemma ScheduleTraced(s: State, g: nat)
    requires MembershipCatchUp.Shape(s) && Traced(s)
    ensures Traced(ScheduleCatchUp(s, g))
  {
    var asked := Log(s.log, Requested(g));
    Accepted(s.log, Requested(g));
    Accepted(asked, CancelFetches);
    Accepted(asked, FetchStarted(g));
  }

  lemma FetchOkTraced(cfg: Config, s: State)
    requires MembershipCatchUp.Shape(s) && Traced(s) && |s.passes| == 1 && s.passes[0].Fetching?
    ensures Traced(FetchOk(cfg, s, 0))
  {
    var done := FetchSucceeded(s.passes[0].generation);
    Accepted(s.log, done);
    Accepted(Log(s.log, done), FetchStarted(s.generation));
  }

  lemma FetchFailedTraced(s: State, cancelled: bool)
    requires MembershipCatchUp.Shape(s) && Traced(s) && |s.passes| == 1 && s.passes[0].Fetching?
    ensures Traced(FetchFailed(s, 0, cancelled))
  {
    var g := s.passes[0].generation;
    var done := Log(s.log, FetchRejected(g));
    Accepted(s.log, FetchRejected(g));
    Accepted(done, FetchStarted(s.generation));
    Accepted(done, CatchUpFailure(g, s.catchUpRetryDelayMs));
  }

  lemma BackoffOverTraced(s: State)
    requires MembershipCatchUp.Shape(s) && Traced(s) && |s.passes| == 1 && s.passes[0].BackingOff?
    ensures Traced(BackoffOver(s, 0))
  {
    Accepted(s.log, FetchStarted(s.generation));
  }

  lemma BeginAttemptTraced(cfg: Config, s: State)
    requires Traced(s) && s.connection.Waiting?
    ensures Traced(BeginAttempt(cfg, s))
  {
    var g := s.generation + 1;
    var started := Log(s.log, Attempt(g));
    Accepted(s.log, Attempt(g));
    Accepted(started, Reconnect(g));
    Accepted(Log(started, Reconnect(g)), CancelFetches);
  }

  lemma SettledTraced(cfg: Config, s: State, outcome: Outcome)
    requires Traced(s) && s.connection.Streaming?
    ensures Traced(StreamSettled(cfg, s, outcome))
  {
    var t := if outcome.ThrewStale? then Log(s.log, WentStale(s.generation, outcome.heartbeatAgeMs)) else s.log;
    if outcome.ThrewStale? { Accepted(s.log, t.entry); }
    Accepted(t, Disconnect(s.generation, ReasonOf(outcome), HeartbeatAge(s, outcome, s.connection.markedHealthy)));
  }

  lemma SetUnavailableTraced(s: State, next: bool)
    requires Traced(s)
    ensures Traced(SetUnavailable(s, next))
  {
    Accepted(s.log, WarningShown(next));
  }

  lemma ConnectedTraced(s: State, g: nat)
    requires MembershipCatchUp.Shape(s) && Traced(s) && Enabled(s, OnConnected(g)) && g == s.generation
    ensures Traced(Connected(s, g))
  {
    var h := MarkTransportHealthy(s, g);
    SetUnavailableTraced(s, false);
    ScheduleTraced(h, g);
    assert ScheduleCatchUp(h.(connection := Streaming(true)), g).log == ScheduleCatchUp(h, g).log;
    Accepted(ScheduleCatchUp(h, g).log, Connect(g));
  }

  lemma CallbackTraced(cfg: Config, s: State, e: Event)
    requires Enabled(s, e) && MembershipCatchUp.Shape(s) && Traced(s) && IsCallback(e)
    ensures Traced(Next(cfg, s, e))
  {
    match e
    case OnConnected(g) => if g == s.generation { ConnectedTraced(s, g); }
    case OnChange(g) => if g == s.generation { ScheduleTraced(s.(lastActivityAt := Some(s.now)), g); }
    case OnActivity(g) =>
    case OnVisibilityChange(visible) => if visible { ScheduleTraced(s, s.generation); }
  }

  lemma SliceTraced(cfg: Config, s: State, e: Event)
    requires Enabled(s, e) && MembershipCatchUp.Shape(s) && Traced(s) && IsSlice(e)
    ensures Traced(Next(cfg, s, e))
  {
    match e
    case OnFetchOk(i) => FetchOkTraced(cfg, s);
    case OnFetchFailed(i, cancelled) => FetchFailedTraced(s, cancelled);
    case OnBackoffOver(i) => BackoffOverTraced(s);
  }

  lemma OtherTraced(cfg: Config, s: State, e: Event)
    requires Enabled(s, e) && MembershipCatchUp.Shape(s) && Traced(s) && !IsCallback(e) && !IsSlice(e)
    ensures Traced(Next(cfg, s, e))
  {
    match e
    case OnSettled(outcome) => if !s.aborted { SettledTraced(cfg, s, outcome); }
    case OnReconnectWait => if !s.aborted { BeginAttemptTraced(cfg, s); }
    case OnWarningTimer => SetUnavailableTraced(s.(warningTimer := s.warningTimer.(fired := true)), true);
    case OnAbort =>
    case Elapse(ms) =>
  }

  lemma StepKeepsTraced(cfg: Config, s: State, e: Event)
    requires Enabled(s, e) && MembershipCatchUp.Shape(s) && Traced(s)
    ensures Traced(Next(cfg, s, e))
  {
    if IsCallback(e) {
      CallbackTraced(cfg, s, e);
    } else if IsSlice(e) {
      SliceTraced(cfg, s, e);
    } else {
      OtherTraced(cfg, s, e);
    }
  }

  // ----- every step keeps the waits exact -----

  /** One turn of the folds over failures and waits. */
  lemma Counted(base: nat, before: Log, e: Entry)
    ensures !e.CatchUpFailure? ==> WaitsExact(base, Log(before, e)) == WaitsExact(base, before)
    ensures !e.CatchUpFailure? && !e.FetchSucceeded? && !e.Attempt? ==>
      FailuresInARow(Log(before, e)) == FailuresInARow(before)
  {
  }

  ghost predicate Waits(cfg: Config, s: State) { MembershipCatchUp.Shape(s) && Backoffs(cfg, s) }

  lemma ScheduleWaits(cfg: Config, s: State, g: nat)
    requires Waits(cfg, s)
    ensures Backoffs(cfg, ScheduleCatchUp(s, g))
  {
    var asked := Log(s.log, Requested(g));
    Counted(cfg.retryDelayMs, s.log, Requested(g));
    Counted(cfg.retryDelayMs, asked, CancelFetches);
    Counted(cfg.retryDelayMs, asked, FetchStarted(g));
  }

  lemma FetchOkWaits(cfg: Config, s: State)
    requires Waits(cfg, s) && |s.passes| == 1 && s.passes[0].Fetching?
    ensures Backoffs(cfg, FetchOk(cfg, s, 0))
  {
    var done := FetchSucceeded(s.passes[0].generation);
    Counted(cfg.retryDelayMs, s.log, done);
    Counted(cfg.retryDelayMs, Log(s.log, done), FetchStarted(s.generation));
  }

  lemma FetchFailedWaits(cfg: Config, s: State, cancelled: bool)
    requires Waits(cfg, s) && |s.passes| == 1 && s.passes[0].Fetching?
    ensures Backoffs(cfg, FetchFailed(s, 0, cancelled))
  {
    var g := s.passes[0].generation;
    var done := Log(s.log, FetchRejected(g));
    Counted(cfg.retryDelayMs, s.log, FetchRejected(g));
    Counted(cfg.retryDelayMs, done, FetchStarted(s.generation));
    Counted(cfg.retryDelayMs, done, CatchUpFailure(g, s.catchUpRetryDelayMs));
  }

  lemma BackoffOverWaits(cfg: Config, s: State)
    requires Waits(cfg, s) && |s.passes| == 1 && s.passes[0].BackingOff?
    ensures Backoffs(cfg, BackoffOver(s, 0))
  {
    Counted(cfg.retryDelayMs, s.log, FetchStarted(s.generation));
    if FailuresInARow(s.log) > 0 {
      WaitForNext(cfg.retryDelayMs, FailuresInARow(s.log) - 1);
    }
  }

  lemma BeginAttemptWaits(cfg: Config, s: State)
    requires Waits(cfg, s)
    ensures Backoffs(cfg, BeginAttempt(cfg, s))
  {
    var g := s.generation + 1;
    var started := Log(s.log, Attempt(g));
    Counted(cfg.retryDelayMs, s.log, Attempt(g));
    Counted(cfg.retryDelayMs, started, Reconnect(g));
    Counted(cfg.retryDelayMs, Log(started, Reconnect(g)), CancelFetches);
  }

  lemma SettledWaits(cfg: Config, s: State, outcome: Outcome)
    requires Waits(cfg, s) && s.connection.Streaming?
    ensures Backoffs(cfg, StreamSettled(cfg, s, outcome))
  {
    var t := if outcome.ThrewStale? then Log(s.log, WentStale(s.generation, outcome.heartbeatAgeMs)) else s.log;
    if outcome.ThrewStale? { Counted(cfg.retryDelayMs, s.log, t.entry); }
    Counted(cfg.retryDelayMs, t, Disconnect(s.generation, ReasonOf(outcome), HeartbeatAge(s, outcome, s.connection.markedHealthy)));
  }

  lemma SetUnavailableWaits(cfg: Config, s: State, next: bool)
    requires Waits(cfg, s)
    ensures Waits(cfg, SetUnavailable(s, next))
  {
    Counted(cfg.retryDelayMs, s.log, WarningShown(next));
  }

  lemma ConnectedWaits(cfg: Config, s: State, g: nat)
    requires Waits(cfg, s) && Enabled(s, OnConnected(g)) && g == s.generation
    ensures Backoffs(cfg, Connected(s, g))
  {
    var h := MarkTransportHealthy(s, g).(connection := Streaming(true));
    SetUnavailableWaits(cfg, s, false);
    assert Waits(cfg, h);
    ScheduleWaits(cfg, h, g);
    Counted(cfg.retryDelayMs, ScheduleCatchUp(h, g).log, Connect(g));
  }

  lemma CallbackWaits(cfg: Config, s: State, e: Event)
    requires Enabled(s, e) && Waits(cfg, s) && MembershipCatchUp.Shape(Next(cfg, s, e)) && IsCallback(e)
    ensures Backoffs(cfg, Next(cfg, s, e))
  {
    match e
    case OnConnected(g) => if g == s.generation { ConnectedWaits(cfg, s, g); }
    case OnChange(g) => if g == s.generation { ScheduleWaits(cfg, s.(lastActivityAt := Some(s.now)), g); }
    case OnActivity(g) =>
    case OnVisibilityChange(visible) => if visible { ScheduleWaits(cfg, s, s.generation); }
  }

  lemma SliceWaits(cfg: Config, s: State, e: Event)
    requires Enabled(s, e) && Waits(cfg, s) && MembershipCatchUp.Shape(Next(cfg, s, e)) && IsSlice(e)
    ensures Backoffs(cfg, Next(cfg, s, e))
  {
    match e
    case OnFetchOk(i) => FetchOkWaits(cfg, s);
    case OnFetchFailed(i, cancelled) => FetchFailedWaits(cfg, s, cancelled);
    case OnBackoffOver(i) => BackoffOverWaits(cfg, s);
  }

  lemma OtherWaits(cfg: Config, s: State, e: Event)
    requires Enabled(s, e) && Waits(cfg, s) && MembershipCatchUp.Shape(Next(cfg, s, e)) && !IsCallback(e) && !IsSlice(e)
    ensures Backoffs(cfg, Next(cfg, s, e))
  {
    match e
    case OnSettled(outcome) => SettledWaits(cfg, s, outcome);
    case OnReconnectWait => if !s.aborted { BeginAttemptWaits(cfg, s); }
    case OnWarningTimer => SetUnavailableWaits(cfg, s.(warningTimer := s.warningTimer.(fired := true)), true);
    case OnAbort =>
    case Elapse(ms) =>
  }

  lemma StepKeepsWaits(cfg: Config, s: State, e: Event)
    requires Enabled(s, e) && Waits(cfg, s) && MembershipCatchUp.Shape(Next(cfg, s, e))
    ensures Backoffs(cfg, Next(cfg, s, e))
  {
    if IsCallback(e) {
      CallbackWaits(cfg, s, e);
    } else if IsSlice(e) {
      SliceWaits(cfg, s, e);
    } else {
      OtherWaits(cfg, s, e);
    }
  }

  // ----- over every run -----

  ghost predicate Kept(cfg: Config, s: State) {
    MembershipCatchUp.CatchUp(s) && Traced(s) && Backoffs(cfg, s)
  }

  lemma StepKeeps(cfg: Config, s: State, e: Event)
    requires Enabled(s, e) && Kept(cfg, s)
    ensures Kept(cfg, Next(cfg, s, e))
  {
    MembershipCatchUp.StepKeepsCatchUp(cfg, s, e);
    StepKeepsTraced(cfg, s, e);
    StepKeepsWaits(cfg, s, e);
  }

  lemma StepAt(cfg: Config, states: seq<State>, events: seq<Event>, i: nat)
    requires IsRun(cfg, states, events) && i < |events| && Kept(cfg, states[i])
    ensures Kept(cfg, states[i + 1])
  {
    MembershipTransport.StepAt(cfg, states, events, i);
    StepKeeps(cfg, states[i], events[i]);
  }

  lemma StartIsOk(cfg: Config, now: nat, aborted: bool)
    ensures Kept(cfg, Start(cfg, now, aborted))
  {
    MembershipCatchUp.StartIsOk(cfg, now, aborted);
    Accepted(Empty, Attempt(1));
    Counted(cfg.retryDelayMs, Empty, Attempt(1));
  }

  lemma {:induction false} RunKeeps(cfg: Config, states: seq<State>, events: seq<Event>, i: nat)
    requires IsRun(cfg, states, events) && i < |states|
    ensures Kept(cfg, states[i])
  {
    if i > 0 {
      RunKeeps(cfg, states, events, i - 1);
      StepAt(cfg, states, events, i - 1);
    } else {
      var now, aborted :| states[0] == Start(cfg, now, aborted);
      StartIsOk(cfg, now, aborted);
    }
  }

  // ----- what acceptance means for the diagnostics -----

  function Connects(log: Log, g: nat): nat {
    if log.Empty? then 0 else Connects(log.before, g) + if log.entry == Connect(g) then 1 else 0
  }

  function Disconnects(log: Log, g: nat): nat {
    if log.Empty? then 0
    else Disconnects(log.before, g) + if log.entry.Disconnect? && log.entry.generation == g then 1 else 0
  }

  lemma {:induction false} AcceptedShape(log: Log, g: nat)
    requires Accept(log).Some?
    ensures var t := Accept(log).value;
      && (t.generation == 0 ==> t.phase == Gone)
      && Connects(log, g) <= 1
      && Disconnects(log, g) == (if 0 < g < t.generation || (0 < g == t.generation && t.phase == Gone) then 1 else 0)
      && (g > t.generation || (g == t.generation && t.phase in {Announcing, Connecting}) ==> Connects(log, g) == 0)
      && (g == 0 ==> Connects(log, g) == 0)
    ensures log.Log? && log.entry == Connect(g) ==> Disconnects(log.before, g) == 0
    ensures log.Log? && log.entry.CatchUpFailure? ==> log.entry.generation == Accept(log.before).value.generation
  {
    if log.Log? {
      AcceptedShape(log.before, g);
    }
  }

  /**
   * In every run each generation connects at most once, and every superseded generation has
   * disconnected exactly once, after any connect; later generations have not been heard of.
   */
  lemma DiagnosticsWellFormed(cfg: Config, states: seq<State>, events: seq<Event>, i: nat, g: nat)
    requires IsRun(cfg, states, events) && i < |states|
    ensures var s := states[i];
      && Connects(s.log, g) <= 1
      && (0 < g < s.generation ==> Disconnects(s.log, g) == 1)
      && (g == s.generation ==> Disconnects(s.log, g) <= 1)
      && (g > s.generation ==> Connects(s.log, g) == 0 == Disconnects(s.log, g))
  {
    RunKeeps(cfg, states, events, i);
    AcceptedShape(states[i].log, g);
  }

  /** The k-th wait in a row is min(base * 2^k, 30000), in every run; the first is always the base itself. */
  lemma BackoffIsExponential(cfg: Config, states: seq<State>, events: seq<Event>, i: nat, before: Log, g: nat, waitMs: nat)
    requires IsRun(cfg, states, events) && i < |states| && Within(Log(before, CatchUpFailure(g, waitMs)), states[i].log)
    ensures var k := FailuresInARow(before);
      && (k > 0 || cfg.retryDelayMs <= CATCH_UP_RETRY_MAX_DELAY_MS ==>
            waitMs == Min(cfg.retryDelayMs * Pow2(k), CATCH_UP_RETRY_MAX_DELAY_MS))
      && (k == 0 ==> waitMs == cfg.retryDelayMs)
  {
    RunKeeps(cfg, states, events, i);
    WaitsExactWithin(cfg.retryDelayMs, Log(before, CatchUpFailure(g, waitMs)), states[i].log);
  }

  ghost predicate Within(early: Log, late: Log) {
    early == late || (late.Log? && Within(early, late.before))
  }

  lemma {:induction false} WaitsExactWithin(base: nat, early: Log, late: Log)
    requires WaitsExact(base, late) && Within(early, late)
    ensures WaitsExact(base, early)
  {
    if early != late {
      WaitsExactWithin(base, early, late.before);
    }
  }
}
