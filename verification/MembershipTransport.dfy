/** Transport health, the grace timer and the warning over every run. */
module MembershipTransport {
  import opened Options
  import opened MembershipFollower

  /** Until the follower stops, the timer is armed exactly while transport is unhealthy. */
  ghost predicate Transport(s: State) {
    && (s.transportHealthy ==> s.warningTimer.Disarmed? && !s.unavailable)
    && (s.transportHealthy ==> s.aborted || s.connection == Streaming(true))
    && (s.connection == Streaming(true) ==> s.aborted || s.transportHealthy)
    && (!s.transportHealthy && !s.connection.Stopped? ==> s.warningTimer.Armed?)
    && (s.unavailable && !s.connection.Stopped? ==> s.warningTimer.Armed? && s.warningTimer.fired)
    && (s.warningTimer.Armed? && s.warningTimer.fired ==>
          s.warningTimer.deadline <= s.now && (s.aborted || s.unavailable))
    && (s.connection.Stopped? ==> s.aborted)
  }

  /** Two states alike in health, warning, timer, connection, generation and clock. */
  ghost predicate SameHealth(s: State, t: State) {
    && t.transportHealthy == s.transportHealthy && t.unavailable == s.unavailable && t.warningTimer == s.warningTimer
    && t.connection == s.connection && t.generation == s.generation && t.now == s.now && t.aborted == s.aborted
  }

  lemma ScheduleLeavesTransport(s: State, forGeneration: nat)
    ensures SameHealth(s, ScheduleCatchUp(s, forGeneration))
  {
  }

  lemma FetchOkLeavesTransport(cfg: Config, s: State, i: nat)
    requires Enabled(s, OnFetchOk(i))
    ensures SameHealth(s, FetchOk(cfg, s, i))
  {
  }

  lemma FetchFailedLeavesTransport(s: State, i: nat, cancelled: bool)
    requires Enabled(s, OnFetchFailed(i, cancelled))
    ensures SameHealth(s, FetchFailed(s, i, cancelled))
  {
  }

  lemma BackoffOverLeavesTransport(s: State, i: nat)
    requires Enabled(s, OnBackoffOver(i))
    ensures SameHealth(s, BackoffOver(s, i))
  {
  }

  /** The events that belong to the transport of the current attempt, to the clock or to the abort signal. */
  predicate TouchesTransport(s: State, e: Event) {
    || e.OnSettled? || e.OnReconnectWait? || e.OnWarningTimer? || e.OnAbort? || e.Elapse?
    || (e.OnConnected? && e.forGeneration == s.generation)
  }

  lemma OthersLeaveTransport(cfg: Config, s: State, e: Event)
    requires Enabled(s, e) && !TouchesTransport(s, e)
    ensures SameHealth(s, Next(cfg, s, e))
  {
    match e
    case OnChange(g) => ScheduleLeavesTransport(s.(lastActivityAt := Some(s.now)), g);
    case OnFetchOk(i) => FetchOkLeavesTransport(cfg, s, i);
    case OnFetchFailed(i, cancelled) => FetchFailedLeavesTransport(s, i, cancelled);
    case OnBackoffOver(i) => BackoffOverLeavesTransport(s, i);
    case OnVisibilityChange(visible) => ScheduleLeavesTransport(s, s.generation);
    case _ =>
  }

  lemma ConnectedMovesTransport(s: State, g: nat)
    requires Enabled(s, OnConnected(g)) && g == s.generation
    ensures var t := Connected(s, g);
      SameHealth(MarkTransportHealthy(s, g).(connection := Streaming(true)), t)
  {
    ScheduleLeavesTransport(MarkTransportHealthy(s, g).(connection := Streaming(true)), g);
  }

  lemma StepKeepsTransport(cfg: Config, s: State, e: Event)
    requires Enabled(s, e) && Transport(s)
    ensures Transport(Next(cfg, s, e))
  {
    if !TouchesTransport(s, e) {
      OthersLeaveTransport(cfg, s, e);
    } else if e.OnConnected? {
      ConnectedMovesTransport(s, e.forGeneration);
    }
  }

  /** How one step may move the timer and the warning. */
  ghost predicate MovesTimer(cfg: Config, s: State, t: State) {
    && (t.warningTimer.Armed? ==>
          t.warningTimer.deadline == if s.warningTimer.Armed? then s.warningTimer.deadline else t.now + cfg.warningGraceMs)
    && (t.unavailable && !s.unavailable ==> t.warningTimer.Armed? && t.warningTimer.deadline <= t.now)
    && s.now <= t.now
  }

  lemma SettledMovesTimer(cfg: Config, s: State, outcome: Outcome)
    requires Enabled(s, OnSettled(outcome)) && Transport(s)
    ensures MovesTimer(cfg, s, StreamSettled(cfg, s, outcome))
  {
  }

  lemma StepMovesTimer(cfg: Config, s: State, e: Event, t: State)
    requires IsStep(cfg, s, e, t) && Transport(s)
    ensures MovesTimer(cfg, s, t)
  {
    if !TouchesTransport(s, e) {
      OthersLeaveTransport(cfg, s, e);
    } else {
      match e {
        case OnConnected(g) => ConnectedMovesTransport(s, g);
        case OnSettled(outcome) => SettledMovesTimer(cfg, s, outcome);
        case _ =>
      }
    }
  }

  lemma StepAt(cfg: Config, states: seq<State>, events: seq<Event>, i: nat)
    requires IsRun(cfg, states, events) && i < |events|
    ensures IsStep(cfg, states[i], events[i], states[i + 1])
  {
    assert Follows(cfg, states, events, i);
  }

  lemma {:induction false} RunKeepsTransport(cfg: Config, states: seq<State>, events: seq<Event>, i: nat)
    requires IsRun(cfg, states, events) && i < |states|
    ensures Transport(states[i])
  {
    if i > 0 {
      RunKeepsTransport(cfg, states, events, i - 1);
      StepAt(cfg, states, events, i - 1);
      StepKeepsTransport(cfg, states[i - 1], events[i - 1]);
    }
  }

  lemma TimerMovesAt(cfg: Config, states: seq<State>, events: seq<Event>, i: nat)
    requires IsRun(cfg, states, events) && i < |events|
    ensures MovesTimer(cfg, states[i], states[i + 1])
    ensures states[i + 1].warningTimer.Armed? || states[i + 1].unavailable ==> !states[i + 1].transportHealthy
  {
    RunKeepsTransport(cfg, states, events, i);
    RunKeepsTransport(cfg, states, events, i + 1);
    StepAt(cfg, states, events, i);
    StepMovesTimer(cfg, states[i], events[i], states[i + 1]);
  }

  ghost predicate UnhealthyFrom(states: seq<State>, j: nat, i: nat)
    requires j <= i < |states|
  {
    forall k :: j <= k <= i ==> !states[k].transportHealthy
  }

  /** An armed timer was armed one grace period before its deadline, at the start of the degraded stretch. */
  lemma {:induction false} ArmedSince(cfg: Config, states: seq<State>, events: seq<Event>, i: nat) returns (j: nat)
    requires IsRun(cfg, states, events) && i < |states| && states[i].warningTimer.Armed?
    ensures j <= i && states[j].now + cfg.warningGraceMs == states[i].warningTimer.deadline
    ensures UnhealthyFrom(states, j, i)
  {
    RunKeepsTransport(cfg, states, events, i);
    j := i;
    if i > 0 {
      TimerMovesAt(cfg, states, events, i - 1);
      if states[i - 1].warningTimer.Armed? {
        j := ArmedSince(cfg, states, events, i - 1);
      }
    }
  }

  /** The warning is on only after transport has been unhealthy for a whole grace period, without a break. */
  lemma {:induction false} WarningOnlyAfterGrace(cfg: Config, states: seq<State>, events: seq<Event>, i: nat)
    returns (j: nat)
    requires IsRun(cfg, states, events) && i < |states| && states[i].unavailable
    ensures j <= i && states[i].now - states[j].now >= cfg.warningGraceMs
    ensures UnhealthyFrom(states, j, i)
  {
    RunKeepsTransport(cfg, states, events, i);
    j := i;
    if i > 0 {
      TimerMovesAt(cfg, states, events, i - 1);
      if states[i - 1].unavailable {
        j := WarningOnlyAfterGrace(cfg, states, events, i - 1);
      } else {
        j := ArmedSince(cfg, states, events, i);
      }
    }
  }

  /**
   * Health and the warning move only with the transport of the current attempt:
   * catch-up outcomes, visibility, change and activity callbacks and anything
   * from an older attempt leave both, and the timer, alone.
   */
  lemma OnlyTransportMovesHealth(cfg: Config, s: State, e: Event)
    requires Enabled(s, e)
    requires !e.OnSettled? && !e.OnWarningTimer? && !e.OnReconnectWait?
    requires e.OnConnected? ==> e.forGeneration < s.generation
    ensures var t := Next(cfg, s, e);
      t.transportHealthy == s.transportHealthy && t.unavailable == s.unavailable && t.warningTimer == s.warningTimer
  {
    if !TouchesTransport(s, e) { OthersLeaveTransport(cfg, s, e); }
  }

  /** While unhealthy and unaborted, the warning is on, or the armed timer will turn it on. */
  lemma DegradedAlwaysWarns(cfg: Config, states: seq<State>, events: seq<Event>, i: nat)
    requires IsRun(cfg, states, events) && i < |states|
    requires !states[i].aborted && !states[i].transportHealthy
    ensures var s := states[i];
      && s.warningTimer.Armed?
      && (s.unavailable <==> s.warningTimer.fired)
      && (!s.unavailable && s.warningTimer.deadline <= s.now ==>
            Enabled(s, OnWarningTimer) && Next(cfg, s, OnWarningTimer).unavailable)
  {
    RunKeepsTransport(cfg, states, events, i);
  }
}
