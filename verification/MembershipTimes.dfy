/** The ages that the follower reports and the waits that it keeps, measured on the clock of the run. */
module MembershipTimes {
  import opened Options
  import opened MembershipFollower
  import MembershipCatchUp
  import MembershipTransport

  /** A callback of the current attempt that shows its stream alive. */
  predicate Hears(s: State, e: Event) {
    e == OnConnected(s.generation) || e == OnChange(s.generation) || e == OnActivity(s.generation)
  }

  /** When the current attempt was last heard of. */
  ghost function LastHeard(states: seq<State>, events: seq<Event>, i: nat): Option<nat>
    requires i <= |events| && i <= |states|
  {
    if i == 0 || events[i - 1].OnReconnectWait? then None
    else if Hears(states[i - 1], events[i - 1]) then Some(states[i - 1].now)
    else LastHeard(states, events, i - 1)
  }

  /** Whether the current attempt has connected. */
  ghost function HasConnected(states: seq<State>, events: seq<Event>, i: nat): bool
    requires i <= |events| && i <= |states|
  {
    if i == 0 || events[i - 1].OnReconnectWait? then false
    else events[i - 1] == OnConnected(states[i - 1].generation) || HasConnected(states, events, i - 1)
  }

  lemma SliceLeavesActivity(cfg: Config, s: State, e: Event)
    requires Enabled(s, e) && (MembershipCatchUp.EndsFetch(e) || e.OnBackoffOver?)
    ensures Next(cfg, s, e).lastActivityAt == s.lastActivityAt && Next(cfg, s, e).aborted == s.aborted
  {
  }

  lemma ConnectedIsActivity(s: State, g: nat)
    requires Enabled(s, OnConnected(g)) && g == s.generation
    ensures var t := Connected(s, g); t.aborted == s.aborted && (!s.aborted ==> t.lastActivityAt == Some(s.now))
  {
  }

  /** How a step moves the clock of the last activity. */
  lemma ActivityStep(cfg: Config, s: State, e: Event)
    requires Enabled(s, e) && !Next(cfg, s, e).aborted
    ensures !s.aborted
    ensures Next(cfg, s, e).lastActivityAt ==
      if e.OnReconnectWait? then None else if Hears(s, e) then Some(s.now) else s.lastActivityAt
  {
    if MembershipCatchUp.EndsFetch(e) || e.OnBackoffOver? {
      SliceLeavesActivity(cfg, s, e);
    } else if e.OnConnected? {
      if e.forGeneration == s.generation { ConnectedIsActivity(s, e.forGeneration); }
    } else {
      match e
      case OnChange(_) =>
      case OnVisibilityChange(_) =>
      case OnSettled(_) =>
      case _ =>
    }
  }

  /** Whether the stream of the current attempt has connected is what the connection says. */
  lemma ConnectionStep(cfg: Config, s: State, e: Event)
    requires Enabled(s, e) && Next(cfg, s, e).connection.Streaming?
    ensures Next(cfg, s, e).connection.markedHealthy <==>
      !e.OnReconnectWait? && (e == OnConnected(s.generation) || (s.connection.Streaming? && s.connection.markedHealthy))
    ensures !e.OnReconnectWait? ==> s.connection.Streaming?
  {
    if !MembershipTransport.TouchesTransport(s, e) {
      MembershipTransport.OthersLeaveTransport(cfg, s, e);
    } else if e.OnConnected? {
      MembershipTransport.ConnectedMovesTransport(s, e.forGeneration);
    }
  }

  lemma {:induction false} ClockShowsLastHeard(cfg: Config, states: seq<State>, events: seq<Event>, i: nat)
    requires IsRun(cfg, states, events) && i <= |events| && !states[i].aborted
    ensures states[i].lastActivityAt == LastHeard(states, events, i)
  {
    if i > 0 {
      MembershipTransport.StepAt(cfg, states, events, i - 1);
      ActivityStep(cfg, states[i - 1], events[i - 1]);
      ClockShowsLastHeard(cfg, states, events, i - 1);
    }
  }

  lemma {:induction false} MarkShowsConnected(cfg: Config, states: seq<State>, events: seq<Event>, i: nat)
    requires IsRun(cfg, states, events) && i <= |events| && states[i].connection.Streaming?
    ensures states[i].connection.markedHealthy <==> HasConnected(states, events, i)
  {
    if i > 0 {
      MembershipTransport.StepAt(cfg, states, events, i - 1);
      ConnectionStep(cfg, states[i - 1], events[i - 1]);
      if !events[i - 1].OnReconnectWait? { MarkShowsConnected(cfg, states, events, i - 1); }
    }
  }

  lemma {:induction false} ConnectedIsHeard(states: seq<State>, events: seq<Event>, i: nat)
    requires i <= |events| && i <= |states| && HasConnected(states, events, i)
    ensures LastHeard(states, events, i).Some?
  {
    if !Hears(states[i - 1], events[i - 1]) { ConnectedIsHeard(states, events, i - 1); }
  }

  /**
   * What an attempt reports when it is over: why it ended, and, if its stream was stale or had connected,
   * for how long it had not been heard of.
   */
  lemma DisconnectTells(cfg: Config, states: seq<State>, events: seq<Event>, i: nat, outcome: Outcome)
    requires IsRun(cfg, states, events) && i < |events| && events[i] == OnSettled(outcome) && !states[i].aborted
    ensures var s, log := states[i], states[i + 1].log;
      && log.Log? && log.entry.Disconnect? && log.entry.generation == s.generation
      && log.entry.reason == (match outcome
                              case EndedComplete => Complete
                              case EndedQuietly => StreamEnded
                              case ThrewStale(_) => Stale
                              case ThrewAbort => Aborted
                              case ThrewError => Failed)
      && log.entry.heartbeatAgeMs ==
           if outcome.ThrewStale? then Some(outcome.heartbeatAgeMs)
           else if HasConnected(states, events, i) then
             (ConnectedIsHeard(states, events, i); Some(s.now - LastHeard(states, events, i).value))
           else None
  {
    MembershipTransport.StepAt(cfg, states, events, i);
    ClockShowsLastHeard(cfg, states, events, i);
    MarkShowsConnected(cfg, states, events, i);
    if HasConnected(states, events, i) { ConnectedIsHeard(states, events, i); }
  }

  // ----- the waits -----

  /** The failure of step `j` reported a wait of `waitMs`, which is over at `until`. */
  ghost predicate ReportedAt(states: seq<State>, events: seq<Event>, j: nat, g: nat, until: nat, waitMs: nat) {
    && j < |events| && j + 1 < |states| && events[j].OnFetchFailed?
    && states[j + 1].log.Log? && states[j + 1].log.entry == CatchUpFailure(g, waitMs)
    && until == states[j].now + waitMs
  }

  ghost predicate BacksOff(s: State) { |s.passes| == 1 && s.passes[0].BackingOff? }

  /** What a step into a wait, or one that leaves a wait open, says of it. */
  ghost predicate WaitGoesOn(s: State, e: Event, t: State)
    requires BacksOff(t)
  {
    var wait := t.passes[0];
    if e.OnFetchFailed? then
      && !wait.woken && wait.generation == t.generation && t.log.Log? && t.log.entry.CatchUpFailure?
      && t.log.entry.generation == wait.generation && wait.until == s.now + t.log.entry.waitMs
    else
      && !s.aborted && BacksOff(s) && wait.generation == s.passes[0].generation && wait.until == s.passes[0].until
      && (wait.woken ==> s.passes[0].woken || wait.generation < t.generation)
  }

  lemma FailureReports(s: State, cancelled: bool)
    requires MembershipCatchUp.CatchUp(s) && Enabled(s, OnFetchFailed(0, cancelled)) && BacksOff(FetchFailed(s, 0, cancelled))
    ensures WaitGoesOn(s, OnFetchFailed(0, cancelled), FetchFailed(s, 0, cancelled))
  {
  }

  lemma SliceIsNoWait(cfg: Config, s: State, e: Event)
    requires MembershipCatchUp.CatchUp(s) && Enabled(s, e) && (e.OnFetchOk? || e.OnBackoffOver?)
    ensures !BacksOff(Next(cfg, s, e))
  {
  }

  lemma AskLeavesWait(s: State, g: nat)
    requires MembershipCatchUp.CatchUp(s) && BacksOff(ScheduleCatchUp(s, g))
    ensures ScheduleCatchUp(s, g).passes == s.passes
  {
  }

  lemma ConnectedLeavesWait(s: State, g: nat)
    requires MembershipCatchUp.CatchUp(s) && Enabled(s, OnConnected(g)) && BacksOff(Connected(s, g))
    ensures Connected(s, g).passes == s.passes && Connected(s, g).aborted == s.aborted
  {
    if g == s.generation {
      MembershipCatchUp.HealthyKeeps(s, g);
      AskLeavesWait(MarkTransportHealthy(s, g).(connection := Streaming(true)), g);
    }
  }

  lemma AttemptWakes(cfg: Config, s: State)
    requires BacksOff(BeginAttempt(cfg, s)) && !s.aborted && MembershipCatchUp.CatchUp(s)
    ensures WaitGoesOn(s, OnReconnectWait, BeginAttempt(cfg, s))
  {
  }

  lemma CallbackLeavesWait(cfg: Config, s: State, e: Event)
    requires MembershipCatchUp.CatchUp(s) && Enabled(s, e) && IsCallback(e) && BacksOff(Next(cfg, s, e))
    ensures Next(cfg, s, e).passes == s.passes && Next(cfg, s, e).aborted == s.aborted
  {
    match e
    case OnConnected(g) => ConnectedLeavesWait(s, g);
    case OnChange(g) => if g == s.generation { AskLeavesWait(s.(lastActivityAt := Some(s.now)), g); }
    case OnVisibilityChange(visible) => if visible { AskLeavesWait(s, s.generation); }
    case OnActivity(_) =>
  }

  lemma OtherGoesOn(cfg: Config, s: State, e: Event)
    requires MembershipCatchUp.CatchUp(s) && Enabled(s, e) && !IsCallback(e) && !IsSlice(e)
    requires !Next(cfg, s, e).aborted && BacksOff(Next(cfg, s, e))
    ensures WaitGoesOn(s, e, Next(cfg, s, e))
  {
    match e
    case OnReconnectWait => if !s.aborted { AttemptWakes(cfg, s); }
    case OnSettled(_) =>
    case OnWarningTimer =>
    case OnAbort =>
    case Elapse(_) =>
  }

  lemma BackoffStep(cfg: Config, s: State, e: Event)
    requires MembershipCatchUp.CatchUp(s) && Enabled(s, e) && !Next(cfg, s, e).aborted && BacksOff(Next(cfg, s, e))
    ensures WaitGoesOn(s, e, Next(cfg, s, e))
  {
    if IsCallback(e) {
      CallbackLeavesWait(cfg, s, e);
    } else if e.OnFetchFailed? {
      FailureReports(s, e.cancelled);
    } else if IsSlice(e) {
      SliceIsNoWait(cfg, s, e);
    } else {
      OtherGoesOn(cfg, s, e);
    }
  }

  lemma BackoffStepAt(cfg: Config, states: seq<State>, events: seq<Event>, i: nat)
    requires IsRun(cfg, states, events) && i < |events| && !states[i + 1].aborted && BacksOff(states[i + 1])
    ensures WaitGoesOn(states[i], events[i], states[i + 1]) && states[i].generation <= states[i + 1].generation
  {
    MembershipCatchUp.RunKeepsCatchUp(cfg, states, events, i);
    MembershipTransport.StepAt(cfg, states, events, i);
    BackoffStep(cfg, states[i], events[i]);
    MembershipCatchUp.GenerationGrows(cfg, states[i], events[i]);
  }

  lemma {:induction false} BackoffBegan(cfg: Config, states: seq<State>, events: seq<Event>, i: nat) returns (j: nat, waitMs: nat)
    requires IsRun(cfg, states, events) && i < |states| && !states[i].aborted && BacksOff(states[i])
    ensures j < i && ReportedAt(states, events, j, states[i].passes[0].generation, states[i].passes[0].until, waitMs)
    ensures states[i].passes[0].woken ==> states[i].passes[0].generation < states[i].generation
  {
    j, waitMs := 0, 0;
    if i > 0 {
      BackoffStepAt(cfg, states, events, i - 1);
      if events[i - 1].OnFetchFailed? {
        j, waitMs := i - 1, states[i].log.entry.waitMs;
      } else {
        j, waitMs := BackoffBegan(cfg, states, events, i - 1);
      }
    }
  }

  /** A failed catch-up of the current attempt is retried no sooner than after the wait that was reported. */
  lemma BackoffLasts(cfg: Config, states: seq<State>, events: seq<Event>, i: nat) returns (j: nat, waitMs: nat)
    requires IsRun(cfg, states, events) && i < |events| && events[i] == OnBackoffOver(0) && !states[i].aborted
    requires BacksOff(states[i]) && states[i].passes[0].generation == states[i].generation
    ensures j < i && ReportedAt(states, events, j, states[i].generation, states[i].passes[0].until, waitMs)
    ensures states[i].now - states[j].now >= waitMs
  {
    j, waitMs := BackoffBegan(cfg, states, events, i);
    MembershipTransport.StepAt(cfg, states, events, i);
  }

  lemma WaitingStep(cfg: Config, s: State, e: Event)
    requires Enabled(s, e) && Next(cfg, s, e).connection.Waiting? && !Next(cfg, s, e).aborted
    ensures var t := Next(cfg, s, e);
      if e.OnSettled? then t.connection == Waiting(s.now + cfg.retryDelayMs, false) else t.connection == s.connection && !s.aborted
  {
    if !MembershipTransport.TouchesTransport(s, e) {
      MembershipTransport.OthersLeaveTransport(cfg, s, e);
    } else if e.OnConnected? {
      MembershipTransport.ConnectedMovesTransport(s, e.forGeneration);
    }
  }

  lemma {:induction false} WaitBegan(cfg: Config, states: seq<State>, events: seq<Event>, i: nat) returns (j: nat)
    requires IsRun(cfg, states, events) && i < |states| && states[i].connection.Waiting? && !states[i].aborted
    ensures j < i && events[j].OnSettled? && states[i].connection == Waiting(states[j].now + cfg.retryDelayMs, false)
  {
    j := 0;
    if i > 0 {
      MembershipTransport.StepAt(cfg, states, events, i - 1);
      WaitingStep(cfg, states[i - 1], events[i - 1]);
      if events[i - 1].OnSettled? {
        j := i - 1;
      } else {
        j := WaitBegan(cfg, states, events, i - 1);
      }
    }
  }

  /** The next attempt begins no sooner than the retry delay after the last one ended. */
  lemma ReconnectLasts(cfg: Config, states: seq<State>, events: seq<Event>, i: nat) returns (j: nat)
    requires IsRun(cfg, states, events) && i < |events| && events[i].OnReconnectWait? && !states[i].aborted
    ensures j < i && events[j].OnSettled? && states[i].now - states[j].now >= cfg.retryDelayMs
  {
    MembershipTransport.StepAt(cfg, states, events, i);
    j := WaitBegan(cfg, states, events, i);
  }
}
