/**
 * The work-items follower with its handles and flags. Each slice is proved against its transition, and the
 * invariant of the transition system is carried through it as a class invariant.
 */
module WorkItemsFollowerObject {
  import opened Options
  import opened Debts
  import opened DebtLogs
  import opened WorkItemsFollower
  import opened WorkItemsFollowerProofs
  import C = CommittedCounts
  import O = OpenCounts
  import F = FullRefresh

  class Follower {
    var aborted: bool
    var committedCountsRefresh: Option<nat>
    var committedCountsRefreshPending: bool
    var committedCountsRetryLoop: bool
    var promises: seq<C.Promise>
    var countRuns: seq<C.Run>
    var countRetries: seq<C.Retry>
    ghost var direct: set<nat>
    ghost var requests: Log
    ghost var scheduled: Log

    var openPrCountsRefresh: bool
    var openPrCountsRefreshPending: bool
    var openPasses: nat
    ghost var openLog: Log

    var fullRefreshRetryLoop: bool
    var fullRefreshPending: bool
    var fullPasses: seq<F.Pass>
    ghost var fullLog: Log

    var connection: Connection

    ghost function Counts(): C.State
      reads this
    {
      C.State(aborted, committedCountsRefreshPending, committedCountsRefresh, committedCountsRetryLoop,
              promises, countRuns, countRetries, direct, requests, scheduled)
    }

    ghost function Open(): O.State
      reads this
    {
      O.State(aborted, openPrCountsRefreshPending, openPrCountsRefresh, openPasses, openLog)
    }

    ghost function Full(): F.State
      reads this
    {
      F.State(aborted, fullRefreshPending, fullRefreshRetryLoop, fullPasses, fullLog)
    }

    ghost function Model(): State
      reads this
    {
      State(Counts(), Open(), Full(), connection)
    }

    ghost predicate Valid()
      reads this
    {
      Inv(Model())
    }

    constructor (aborted: bool)
      ensures Model() == Start(aborted) && Valid()
    {
      this.aborted := aborted;
      committedCountsRefresh, committedCountsRefreshPending, committedCountsRetryLoop := None, false, false;
      promises, countRuns, countRetries := [], [], [];
      direct, requests, scheduled := {}, Empty, Empty;
      openPrCountsRefresh, openPrCountsRefreshPending, openPasses, openLog := false, false, 0, Empty;
      fullRefreshRetryLoop, fullRefreshPending, fullPasses, fullLog := false, false, [], Empty;
      connection := if aborted then Stopped else Connecting;
      new;
      StartIsOk(aborted);
    }

    // ----- committed counts -----

    /** From the head of the refresh loop to the next pass, or to the settling of its promise. */
    method ContinueRun(i: nat)
      requires i < |countRuns| && countRuns[i].promise < |promises|
      modifies this
      ensures Counts() == C.Continue(old(Counts()), i)
      ensures Open() == old(Open()) && Full() == old(Full()) && connection == old(connection)
    {
      if committedCountsRefreshPending && !aborted {
        committedCountsRefreshPending := false;
        requests, scheduled := Log(requests, Started), Log(scheduled, Started);
        return;
      }
      EndRun(i);
    }

    /** The code behind the refresh loop. */
    method EndRun(i: nat)
      requires i < |countRuns| && countRuns[i].promise < |promises| && (committedCountsRefreshPending ==> aborted)
      modifies this
      ensures Counts() == C.Continue(old(Counts()), i)
      ensures Open() == old(Open()) && Full() == old(Full()) && connection == old(connection)
    {
      var run := countRuns[i];
      committedCountsRefresh := None;
      countRuns := C.Without(countRuns, i);
      var outcome := C.Resolved;
      if aborted {
        committedCountsRefreshPending := false;
      } else {
        if committedCountsRefreshPending {
          // The trailing refresh behind the loop cannot be reached.
          assert false;
        }
        outcome := if run.lastFailed then C.Rejected else C.Resolved;
      }
      promises := promises[run.promise := outcome];
    }

    method RefreshCommittedCounts() returns (promise: nat)
      modifies this
      ensures (Counts(), promise) == C.Refresh(old(Counts()))
      ensures Open() == old(Open()) && Full() == old(Full()) && connection == old(connection)
    {
      promise := |promises|;
      if aborted {
        promises := promises + [C.Resolved];
        return;
      }
      committedCountsRefreshPending := true;
      requests := Log(requests, Asked);
      if committedCountsRefresh.Some? {
        promise := committedCountsRefresh.value;
        return;
      }
      StartRun();
    }

    /** A new refresh loop up to its first pass, and its handle. */
    method StartRun()
      requires committedCountsRefreshPending && !aborted
      modifies this
      ensures Counts() == C.StartRun(old(Counts()))
      ensures Open() == old(Open()) && Full() == old(Full()) && connection == old(connection)
    {
      var promise := |promises|;
      promises := promises + [C.Pending];
      countRuns := countRuns + [C.Run(promise, false)];
      ContinueRun(|countRuns| - 1);
      committedCountsRefresh := Some(promise);
    }

    method ScheduleCommittedCounts()
      modifies this
      ensures Counts() == C.Schedule(old(Counts()))
      ensures Open() == old(Open()) && Full() == old(Full()) && connection == old(connection)
    {
      if aborted { return; }
      scheduled := Log(scheduled, Asked);
      if committedCountsRetryLoop {
        committedCountsRefreshPending := true;
        requests := Log(requests, Asked);
        return;
      }
      BeginRetryLoop();
    }

    method BeginRetryLoop()
      requires !aborted
      modifies this
      ensures Counts() == C.StartRetryLoop(old(Counts()))
      ensures Open() == old(Open()) && Full() == old(Full()) && connection == old(connection)
    {
      countRetries := countRetries + [C.Delaying(true)];
      RunRetryLoop(|countRetries| - 1);
      committedCountsRetryLoop := true;
    }

    /** The head of the retry loop, up to the `await` of the refresh. */
    method RunRetryLoop(j: nat)
      requires j < |countRetries| && !aborted
      modifies this
      ensures Counts() == C.ContinueRetry(old(Counts()), j)
      ensures Open() == old(Open()) && Full() == old(Full()) && connection == old(connection)
    {
      var promise := RefreshCommittedCounts();
      countRetries := countRetries[j := C.AwaitingRun(promise)];
    }

    method EndRetryLoop(j: nat)
      requires j < |countRetries|
      modifies this
      ensures Counts() == C.CloseRetry(old(Counts()), j)
      ensures Open() == old(Open()) && Full() == old(Full()) && connection == old(connection)
    {
      committedCountsRetryLoop := false;
      countRetries := C.Without(countRetries, j);
      if committedCountsRefreshPending && !aborted {
        BeginRetryLoop();
      }
    }

    method CountPassSettles(ok: bool)
      requires Enabled(Model(), OnCountPass(ok))
      modifies this
      ensures Model() == Next(old(Model()), OnCountPass(ok))
      ensures old(Valid()) ==> Valid()
    {
      if old(Valid()) { StepKeeps(Model(), OnCountPass(ok)); }
      EndPass(ok);
    }

    /** A pass ends and the loop goes on. */
    method EndPass(ok: bool)
      requires C.Enabled(Counts(), C.OnPass(0, ok))
      modifies this
      ensures Counts() == C.PassSettles(old(Counts()), 0, ok)
      ensures Open() == old(Open()) && Full() == old(Full()) && connection == old(connection)
    {
      countRuns := countRuns[0 := countRuns[0].(lastFailed := !ok)];
      var signal := if ok then Succeeded else Failed;
      requests, scheduled := Log(requests, signal), Log(scheduled, signal);
      ContinueRun(0);
    }

    method RetryLoopResumes()
      requires Enabled(Model(), OnRetry)
      modifies this
      ensures Model() == Next(old(Model()), OnRetry)
      ensures old(Valid()) ==> Valid()
    {
      if old(Valid()) { StepKeeps(Model(), OnRetry); }
      if promises[countRetries[0].promise] != C.Rejected {
        EndRetryLoop(0);
        return;
      }
      countRetries := countRetries[0 := C.Delaying(aborted)];
    }

    method RetryDelayOver()
      requires Enabled(Model(), OnRetryDelay)
      modifies this
      ensures Model() == Next(old(Model()), OnRetryDelay)
      ensures old(Valid()) ==> Valid()
    {
      if old(Valid()) { StepKeeps(Model(), OnRetryDelay); }
      if aborted {
        EndRetryLoop(0);
        return;
      }
      RunRetryLoop(0);
    }

    // ----- open counts -----

    method ContinueInvalidation()
      requires openPasses > 0
      modifies this
      ensures Open() == O.Continue(old(Open()))
      ensures Counts() == old(Counts()) && Full() == old(Full()) && connection == old(connection)
    {
      if openPrCountsRefreshPending && !aborted {
        openPrCountsRefreshPending := false;
        openLog := Log(openLog, Started);
        return;
      }
      openPrCountsRefresh := false;
      openPasses := openPasses - 1;
      if openPrCountsRefreshPending && !aborted {
        // The trailing reschedule of the `finally` block cannot be reached.
        assert false;
      }
    }

    method ScheduleOpenCounts()
      modifies this
      ensures Open() == O.Schedule(old(Open()))
      ensures Counts() == old(Counts()) && Full() == old(Full()) && connection == old(connection)
    {
      if aborted { return; }
      openPrCountsRefreshPending := true;
      openLog := Log(openLog, Asked);
      if openPrCountsRefresh { return; }
      openPasses := openPasses + 1;
      ContinueInvalidation();
      openPrCountsRefresh := true;
    }

    method InvalidationSettles(ok: bool)
      requires Enabled(Model(), OnOpenPass(ok))
      modifies this
      ensures Model() == Next(old(Model()), OnOpenPass(ok))
      ensures old(Valid()) ==> Valid()
    {
      if old(Valid()) { StepKeeps(Model(), OnOpenPass(ok)); }
      openLog := Log(openLog, if ok then Succeeded else Failed);
      ContinueInvalidation();
    }

    // ----- whole refreshes -----

    /** A whole refresh up to its first `await`; its other fetches do not touch this state. */
    method RefreshEverything() returns (promise: nat)
      requires !aborted
      modifies this
      ensures Model() == RefreshAll(old(Model())) && promise == Awaited(old(Model()))
    {
      ScheduleOpenCounts();
      promise := RefreshCommittedCounts();
      direct := direct + {promise};
    }

    /** The head of the full-refresh loop. */
    method ContinueFull(i: nat)
      requires i < |fullPasses| && !aborted
      modifies this
      ensures Full() == F.Continue(old(Full()), i, Awaited(old(Model())))
      ensures Model() == RefreshAll(old(Model())).(full := Full())
    {
      fullRefreshPending := false;
      fullLog := Log(fullLog, Started);
      var promise := RefreshEverything();
      fullPasses := fullPasses[i := F.Refreshing(promise)];
    }

    method CloseFull(i: nat)
      requires i < |fullPasses| && (fullRefreshPending ==> aborted)
      modifies this
      ensures Full() == F.Close(old(Full()), i) && Model() == old(Model()).(full := Full())
    {
      fullRefreshRetryLoop := false;
      fullPasses := fullPasses[..i] + fullPasses[i + 1..];
      if fullRefreshPending && !aborted {
        // The trailing reschedule of the `finally` block cannot be reached.
        assert false;
      }
    }

    /** The tab became visible. */
    method ScheduleRefreshAll()
      requires Enabled(Model(), OnVisible)
      modifies this
      ensures Model() == Next(old(Model()), OnVisible)
      ensures old(Valid()) ==> Valid()
    {
      if old(Valid()) { StepKeeps(Model(), OnVisible); }
      AskForFullRefresh();
    }

    method AskForFullRefresh()
      modifies this
      ensures Model() == Visible(old(Model()))
    {
      if aborted { return; }
      fullRefreshPending := true;
      fullLog := Log(fullLog, Asked);
      if fullRefreshRetryLoop { return; }
      BeginFull();
    }

    /** A new full-refresh loop up to its first `await`, and its handle. */
    method BeginFull()
      requires !aborted
      modifies this
      ensures Full() == F.Begin(old(Full()), Awaited(old(Model())))
      ensures Model() == RefreshAll(old(Model())).(full := Full())
    {
      fullPasses := fullPasses + [F.Delaying];
      ContinueFull(|fullPasses| - 1);
      fullRefreshRetryLoop := true;
    }

    /** The whole refresh of the full-refresh loop ends; it can succeed only after the count refresh it awaits. */
    method FullRefreshSettles(ok: bool)
      requires Enabled(Model(), OnFull(ok))
      modifies this
      ensures Model() == Next(old(Model()), OnFull(ok))
      ensures old(Valid()) ==> Valid()
    {
      if old(Valid()) { StepKeeps(Model(), OnFull(ok)); }
      fullLog := Log(fullLog, if ok then Succeeded else Failed);
      if !ok {
        fullPasses := fullPasses[0 := F.Delaying];
        return;
      }
      if !fullRefreshPending || aborted {
        CloseFull(0);
        return;
      }
      ContinueFull(0);
    }

    method FullDelayEnds()
      requires Enabled(Model(), OnFullDelay)
      modifies this
      ensures Model() == Next(old(Model()), OnFullDelay)
      ensures old(Valid()) ==> Valid()
    {
      if old(Valid()) { StepKeeps(Model(), OnFullDelay); }
      if aborted {
        CloseFull(0);
        return;
      }
      ContinueFull(0);
    }

    // ----- the reconnect loop -----

    /** The stream is connected and awaits a whole refresh before it reads on. */
    method StreamConnects()
      requires Enabled(Model(), OnConnected)
      modifies this
      ensures Model() == Next(old(Model()), OnConnected)
      ensures old(Valid()) ==> Valid()
    {
      if old(Valid()) { StepKeeps(Model(), OnConnected); }
      if aborted {
        connection := Streaming;
        return;
      }
      var promise := RefreshEverything();
      connection := Joining(promise);
    }

    /** The attempt is over, however it ended. */
    method Disconnect()
      modifies this`connection
      ensures Model() == Disconnected(old(Model()))
    {
      connection := if aborted then Stopped else Waiting;
    }

    /** A failed refresh of a new connection makes the stream throw. */
    method ConnectionRefreshSettles(ok: bool)
      requires Enabled(Model(), OnJoined(ok))
      modifies this
      ensures Model() == Next(old(Model()), OnJoined(ok))
      ensures old(Valid()) ==> Valid()
    {
      if old(Valid()) { StepKeeps(Model(), OnJoined(ok)); }
      if !ok {
        Disconnect();
        return;
      }
      connection := Streaming;
    }

    method StreamEnds()
      requires Enabled(Model(), OnStreamEnd)
      modifies this
      ensures Model() == Next(old(Model()), OnStreamEnd)
      ensures old(Valid()) ==> Valid()
    {
      if old(Valid()) { StepKeeps(Model(), OnStreamEnd); }
      Disconnect();
    }

    method ReconnectWaitEnds()
      requires Enabled(Model(), OnReconnect)
      modifies this
      ensures Model() == Next(old(Model()), OnReconnect)
      ensures old(Valid()) ==> Valid()
    {
      if old(Valid()) { StepKeeps(Model(), OnReconnect); }
      connection := if aborted then Stopped else Connecting;
    }

    /** A work item changed: counts are scheduled, never awaited. */
    method WorkItemChanged()
      requires Enabled(Model(), OnChange)
      modifies this
      ensures Model() == Next(old(Model()), OnChange)
      ensures old(Valid()) ==> Valid()
    {
      if old(Valid()) { StepKeeps(Model(), OnChange); }
      ScheduleCommittedCounts();
      ScheduleOpenCounts();
    }

    method AbortSignal()
      requires Enabled(Model(), OnAbort)
      modifies this
      ensures Model() == Next(old(Model()), OnAbort)
      ensures old(Valid()) ==> Valid()
    {
      if old(Valid()) { StepKeeps(Model(), OnAbort); }
      CancelOwned();
    }

    /** The listener clears the flags; the waits of the retry loops end. */
    method CancelOwned()
      modifies this
      ensures Counts() == C.Abort(old(Counts())) && Open() == O.Abort(old(Open())) && Full() == F.Abort(old(Full()))
      ensures connection == old(connection)
    {
      aborted, committedCountsRefreshPending := true, false;
      openPrCountsRefreshPending, fullRefreshPending := false, false;
      countRetries := C.WakeAll(countRetries);
    }
  }
}
