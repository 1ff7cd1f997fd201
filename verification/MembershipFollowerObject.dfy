/**
 * The follower with its mutable variables. Each slice is proved against the transition system, and the invariants
 * of its runs are carried through the events as a class invariant.
 */
module MembershipFollowerObject {
  import opened Options
  import opened MembershipFollower
  import MembershipTransport
  import MembershipTrace

  /** Single flight and no lost request, a well-formed trace with exact waits, and a timer that follows health. */
  ghost predicate Inv(cfg: Config, s: State) {
    MembershipTrace.Kept(cfg, s) && MembershipTransport.Transport(s)
  }

  lemma EventKeeps(cfg: Config, s: State, e: Event)
    requires Enabled(s, e) && Inv(cfg, s)
    ensures Inv(cfg, Next(cfg, s, e))
  {
    MembershipTrace.StepKeeps(cfg, s, e);
    MembershipTransport.StepKeepsTransport(cfg, s, e);
  }

  lemma StartIsOk(cfg: Config, now: nat, aborted: bool)
    ensures Inv(cfg, Start(cfg, now, aborted))
  {
    MembershipTrace.StartIsOk(cfg, now, aborted);
  }

  class Follower {
    const retryDelayMs: nat
    const warningGraceMs: nat

    var now: nat
    var aborted: bool
    var generation: nat
    var transportHealthy: bool
    var lastActivityAt: Option<nat>
    var warningTimer: WarningTimer
    var unavailable: bool
    var catchUpInFlight: bool
    var catchUpPending: bool
    var catchUpGeneration: nat
    var catchUpRunningGeneration: nat
    var catchUpRetryDelayMs: nat
    var passes: seq<Pass>
    var connection: Connection
    ghost var log: Log

    ghost function Model(): State
      reads this
    {
      State(now, aborted, generation, transportHealthy, lastActivityAt, warningTimer, unavailable,
            catchUpInFlight, catchUpPending, catchUpGeneration, catchUpRunningGeneration, catchUpRetryDelayMs,
            passes, connection, log)
    }

    ghost function Settings(): Config {
      Config(retryDelayMs, warningGraceMs)
    }

    ghost predicate Valid()
      reads this
    {
      Inv(Settings(), Model())
    }

    /** The event can happen in a valid state. */
    ghost predicate Takes(e: Event)
      reads this
    {
      Valid() && Enabled(Model(), e)
    }

    twostate lemma StepIsValid(e: Event)
      requires old(Takes(e)) && Model() == Next(Settings(), old(Model()), e)
      ensures Valid()
    {
      EventKeeps(Settings(), old(Model()), e);
    }

    constructor (retryDelayMs: nat, warningGraceMs: nat, now: nat, aborted: bool)
      ensures Settings() == Config(retryDelayMs, warningGraceMs)
      ensures Model() == Start(Settings(), now, aborted) && Valid()
    {
      this.retryDelayMs, this.warningGraceMs := retryDelayMs, warningGraceMs;
      this.now, this.aborted := now, aborted;
      generation, transportHealthy, lastActivityAt := 0, false, None;
      warningTimer, unavailable := Disarmed, false;
      catchUpInFlight, catchUpPending, catchUpGeneration, catchUpRunningGeneration := false, false, 0, 0;
      catchUpRetryDelayMs := retryDelayMs;
      passes, connection, log := [], Connection.Stopped, Empty;
      new;
      MarkUnhealthy();
      RunReconnectLoop();
      StartIsOk(Settings(), now, aborted);
    }

    // ----- transport health -----

    method PublishUnavailable(next: bool)
      modifies this
      ensures Model() == SetUnavailable(old(Model()), next)
    {
      if unavailable == next { return; }
      unavailable := next;
      log := Log(log, WarningShown(next));
    }

    method MarkHealthy(forGeneration: nat)
      modifies this
      ensures Model() == MarkTransportHealthy(old(Model()), forGeneration)
    {
      if forGeneration != generation || aborted { return; }
      transportHealthy := true;
      lastActivityAt := Some(now);
      warningTimer := Disarmed;
      PublishUnavailable(false);
    }

    method MarkUnhealthy()
      modifies this
      ensures Model() == MarkTransportUnhealthy(Settings(), old(Model()))
    {
      transportHealthy := false;
      if warningTimer.Disarmed? {
        warningTimer := Armed(now + warningGraceMs, false);
      }
    }

    // ----- catch-up -----

    /** The catch-up loop from its head to the next `await`, or to the end of its `finally` block. */
    method ContinuePass(i: nat)
      requires i < |passes|
      modifies this
      ensures Model() == RunPass(old(Model()), i)
    {
      while catchUpPending && !aborted
        invariant i < |passes| && RunPass(Model(), i) == RunPass(old(Model()), i)
        decreases catchUpPending
      {
        catchUpPending := false;
        var activeGeneration := catchUpGeneration;
        catchUpRunningGeneration := activeGeneration;
        if activeGeneration != generation {
          continue;
        }
        passes := passes[i := Fetching(activeGeneration)];
        log := Log(log, FetchStarted(activeGeneration));
        return;
      }
      catchUpInFlight := false;
      catchUpRunningGeneration := 0;
      passes := passes[..i] + passes[i + 1..];
      if catchUpPending && !aborted {
        // The trailing reschedule of the `finally` block cannot be reached.
        assert false;
      }
    }

    method RequestCatchUp(forGeneration: nat)
      modifies this
      ensures Model() == ScheduleCatchUp(old(Model()), forGeneration)
    {
      if aborted { return; }
      if forGeneration != generation { return; }
      catchUpPending := true;
      catchUpGeneration := forGeneration;
      log := Log(log, Requested(forGeneration));
      if catchUpInFlight {
        if forGeneration > catchUpRunningGeneration {
          log := Log(log, CancelFetches);
        }
        return;
      }
      StartPass();
    }

    /** The handle is assigned once the loop body has run up to its first `await`. */
    method StartPass()
      modifies this
      ensures var s := old(Model());
        Model() == RunPass(s.(passes := s.passes + [Running]), |s.passes|).(catchUpInFlight := true)
    {
      passes := passes + [Running];
      ContinuePass(|passes| - 1);
      catchUpInFlight := true;
    }

    method FetchResolves(i: nat)
      requires i < |passes| && passes[i].Fetching?
      modifies this
      ensures Model() == FetchOk(Settings(), old(Model()), i)
      ensures old(Takes(OnFetchOk(i))) ==> Valid()
    {
      ResumeAfterFetch(i);
      if old(Takes(OnFetchOk(i))) { StepIsValid(OnFetchOk(i)); }
    }

    /** The loop body behind a fetch that succeeded. */
    method ResumeAfterFetch(i: nat)
      requires i < |passes| && passes[i].Fetching?
      modifies this
      ensures Model() == FetchOk(Settings(), old(Model()), i)
    {
      log := Log(log, FetchSucceeded(passes[i].generation));
      catchUpRetryDelayMs := retryDelayMs;
      passes := passes[i := Running];
      ContinuePass(i);
    }

    method FetchRejects(i: nat, cancelled: bool)
      requires i < |passes| && passes[i].Fetching?
      modifies this
      ensures Model() == FetchFailed(old(Model()), i, cancelled)
      ensures old(Takes(OnFetchFailed(i, cancelled))) ==> Valid()
    {
      CatchRejection(i, cancelled);
      if old(Takes(OnFetchFailed(i, cancelled))) { StepIsValid(OnFetchFailed(i, cancelled)); }
    }

    /** The `catch` block of the loop. */
    method CatchRejection(i: nat, cancelled: bool)
      requires i < |passes| && passes[i].Fetching?
      modifies this
      ensures Model() == FetchFailed(old(Model()), i, cancelled)
    {
      var activeGeneration := passes[i].generation;
      passes := passes[i := Running];
      log := Log(log, FetchRejected(activeGeneration));
      if aborted {
        catchUpInFlight := false;
        catchUpRunningGeneration := 0;
        passes := passes[..i] + passes[i + 1..];
        return;
      }
      if cancelled || activeGeneration != generation {
        if !aborted && catchUpGeneration == generation {
          catchUpPending := true;
        }
        ContinuePass(i);
        return;
      }
      log := Log(log, CatchUpFailure(activeGeneration, catchUpRetryDelayMs));
      passes := passes[i := BackingOff(activeGeneration, now + catchUpRetryDelayMs, false)];
    }

    method BackoffEnds(i: nat)
      requires i < |passes| && passes[i].BackingOff?
      modifies this
      ensures Model() == BackoffOver(old(Model()), i)
      ensures old(Takes(OnBackoffOver(i))) ==> Valid()
    {
      ResumeAfterWait(i);
      if old(Takes(OnBackoffOver(i))) { StepIsValid(OnBackoffOver(i)); }
    }

    /** The loop body behind the wait. */
    method ResumeAfterWait(i: nat)
      requires i < |passes| && passes[i].BackingOff?
      modifies this
      ensures Model() == BackoffOver(old(Model()), i)
    {
      var activeGeneration := passes[i].generation;
      passes := passes[i := Running];
      if activeGeneration == generation && !aborted {
        catchUpRetryDelayMs := Min(catchUpRetryDelayMs * 2, CATCH_UP_RETRY_MAX_DELAY_MS);
        catchUpPending := true;
      } else if !aborted && catchUpGeneration == generation {
        catchUpPending := true;
      }
      ContinuePass(i);
    }

    // ----- the reconnect loop -----

    /** From the head of the reconnect loop to the `await` on the stream, or to the outer `finally` block. */
    method RunReconnectLoop()
      modifies this
      ensures Model() == ReconnectLoop(Settings(), old(Model()))
    {
      if aborted {
        StopFollower();
      } else {
        OpenAttempt();
      }
    }

    /** The outer `finally` block. */
    method StopFollower()
      modifies this`warningTimer, this`connection
      ensures Model() == Stop(old(Model()))
    {
      warningTimer := Disarmed;
      connection := Connection.Stopped;
    }

    method OpenAttempt()
      modifies this
      ensures Model() == BeginAttempt(Settings(), old(Model()))
    {
      generation := generation + 1;
      catchUpRetryDelayMs := retryDelayMs;
      lastActivityAt := None;
      connection := Streaming(false);
      passes := WakeAll(passes);
      AnnounceAttempt();
    }

    /** The diagnostic of a reconnect, and the cancelled fetch of the attempt before. */
    method AnnounceAttempt()
      modifies this`log
      ensures var started := Log(old(log), Attempt(generation));
        log == if generation > 1 then Log(Log(started, Reconnect(generation)), CancelFetches) else started
    {
      log := Log(log, Attempt(generation));
      if generation > 1 {
        log := Log(Log(log, Reconnect(generation)), CancelFetches);
      }
    }

    /** The wait between two attempts is over. */
    method ReconnectWaitEnds()
      requires Enabled(Model(), OnReconnectWait)
      modifies this
      ensures Model() == ReconnectLoop(Settings(), old(Model()))
      ensures old(Valid()) ==> Valid()
    {
      RunReconnectLoop();
      if old(Valid()) { StepIsValid(OnReconnectWait); }
    }

    method StreamSettles(outcome: Outcome)
      requires connection.Streaming?
      modifies this
      ensures Model() == StreamSettled(Settings(), old(Model()), outcome)
      ensures old(Valid()) ==> Valid()
    {
      if aborted {
        StopFollower();
      } else {
        CloseAttempt(outcome);
      }
      if old(Valid()) { StepIsValid(OnSettled(outcome)); }
    }

    /** What follows a settled attempt, up to the wait before the next one. */
    method CloseAttempt(outcome: Outcome)
      requires connection.Streaming? && !aborted
      modifies this
      ensures Model() == StreamSettled(Settings(), old(Model()), outcome)
    {
      ReportDisconnect(outcome);
      MarkUnhealthy();
      connection := Waiting(now + retryDelayMs, false);
    }

    /** The diagnostics of a settled attempt. */
    method ReportDisconnect(outcome: Outcome)
      requires connection.Streaming?
      modifies this`log
      ensures var s := old(Model());
        var before := if outcome.ThrewStale? then Log(s.log, WentStale(s.generation, outcome.heartbeatAgeMs)) else s.log;
        log == Log(before, Disconnect(s.generation, ReasonOf(outcome), HeartbeatAge(s, outcome, s.connection.markedHealthy)))
    {
      var heartbeatAgeMs: Option<int> := None;
      if outcome.ThrewStale? {
        heartbeatAgeMs := Some(outcome.heartbeatAgeMs);
        log := Log(log, WentStale(generation, outcome.heartbeatAgeMs));
      }
      if heartbeatAgeMs.None? && connection.markedHealthy && lastActivityAt.Some? {
        heartbeatAgeMs := Some(now - lastActivityAt.value);
      }
      log := Log(log, Disconnect(generation, ReasonOf(outcome), heartbeatAgeMs));
    }

    // ----- callbacks and signals -----

    method StreamConnects(forGeneration: nat)
      requires forGeneration == generation ==> connection.Streaming?
      modifies this
      ensures Model() == Connected(old(Model()), forGeneration)
      ensures old(Takes(OnConnected(forGeneration))) ==> Valid()
    {
      if forGeneration == generation {
        MarkHealthy(forGeneration);
        connection := Streaming(true);
        RequestCatchUp(forGeneration);
        log := Log(log, Connect(forGeneration));
      }
      if old(Takes(OnConnected(forGeneration))) { StepIsValid(OnConnected(forGeneration)); }
    }

    method StreamChanges(forGeneration: nat)
      modifies this
      ensures Model() == Changed(old(Model()), forGeneration)
      ensures old(Takes(OnChange(forGeneration))) ==> Valid()
    {
      if forGeneration == generation {
        lastActivityAt := Some(now);
        RequestCatchUp(forGeneration);
      }
      if old(Takes(OnChange(forGeneration))) { StepIsValid(OnChange(forGeneration)); }
    }

    method StreamActive(forGeneration: nat)
      modifies this
      ensures Model() == Activity(old(Model()), forGeneration)
      ensures old(Takes(OnActivity(forGeneration))) ==> Valid()
    {
      if forGeneration == generation {
        lastActivityAt := Some(now);
      }
      if old(Takes(OnActivity(forGeneration))) { StepIsValid(OnActivity(forGeneration)); }
    }

    method WarningTimerCallback()
      requires warningTimer.Armed?
      modifies this
      ensures Model() == WarningTimerFires(old(Model()))
      ensures old(Takes(OnWarningTimer)) ==> Valid()
    {
      warningTimer := warningTimer.(fired := true);
      if !aborted && !transportHealthy {
        PublishUnavailable(true);
      }
      if old(Takes(OnWarningTimer)) { StepIsValid(OnWarningTimer); }
    }

    method VisibilityChanges(visible: bool)
      modifies this
      ensures Model() == if visible then ScheduleCatchUp(old(Model()), old(generation)) else old(Model())
      ensures old(Takes(OnVisibilityChange(visible))) ==> Valid()
    {
      if visible {
        RequestCatchUp(generation);
      }
      if old(Takes(OnVisibilityChange(visible))) { StepIsValid(OnVisibilityChange(visible)); }
    }

    /** Time passes between two slices. */
    method ClockMoves(ms: nat)
      modifies this`now
      ensures Model() == old(Model()).(now := old(now) + ms)
      ensures old(Valid()) ==> Valid()
    {
      now := now + ms;
      if old(Valid()) { StepIsValid(Elapse(ms)); }
    }

    method AbortSignal()
      modifies this
      ensures Model() == Abort(old(Model()))
      ensures old(Takes(OnAbort)) ==> Valid()
    {
      WakeWaits();
      if old(Takes(OnAbort)) { StepIsValid(OnAbort); }
    }

    /** The abort listeners of the waits. */
    method WakeWaits()
      modifies this`aborted, this`passes, this`connection
      ensures Model() == Abort(old(Model()))
    {
      aborted := true;
      passes := WakeAll(passes);
      if connection.Waiting? {
        connection := connection.(woken := true);
      }
    }
  }
}
