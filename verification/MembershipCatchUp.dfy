/** The catch-up loop: single-flight, and no accepted notification is ever lost. */
module MembershipCatchUp {
  import opened Options
  import opened Debts
  import opened Service
  import opened MembershipFollower
  import MembershipTransport

  // ----- the catch-up loop is single-flight -----

  ghost predicate SingleFlight(s: State) {
    && |s.passes| <= 1
    && (s.catchUpInFlight <==> |s.passes| == 1)
    && (|s.passes| == 1 ==> !s.passes[0].Running?)
  }

  ghost predicate Generations(s: State)
    requires SingleFlight(s)
  {
    && s.catchUpGeneration <= s.generation
    && (s.passes == [] ==> s.catchUpRunningGeneration == 0)
    && (s.passes != [] ==>
      && s.passes[0].generation == s.catchUpRunningGeneration <= s.catchUpGeneration
      && (s.passes[0].generation < s.catchUpGeneration ==> s.catchUpPending)
      && (s.passes[0].BackingOff? && (s.aborted || s.passes[0].generation < s.generation) ==> s.passes[0].woken))
  }

  /** The loop and its variables fit together. */
  ghost predicate Shape(s: State) { SingleFlight(s) && Generations(s) }

  // ----- what is still owed to a generation -----

  /** What a log entry signals to generation `g`: its requests, and the starts and ends of its fetches. */
  function SignalFor(e: Entry, g: nat): Option<Signal> {
    match e
    case Requested(h) => if h == g then Some(Asked) else None
    case FetchStarted(h) => if h == g then Some(Started) else None
    case FetchRejected(h) => if h == g then Some(Signal.Failed) else None
    case FetchSucceeded(h) => if h == g then Some(Succeeded) else None
    case _ => None
  }

  function AfterEntry(d: Debt, e: Entry, g: nat): Debt {
    if SignalFor(e, g).Some? then After(d, SignalFor(e, g).value) else d
  }

  /** `Paid`: a fetch that started after the last request of the generation has succeeded. */
  function DebtOf(log: Log, g: nat): Debt {
    if log.Empty? then Unasked else AfterEntry(DebtOf(log.before, g), log.entry, g)
  }

  /** The newest generation that has asked. */
  function NewestAsked(log: Log): nat {
    if log.Empty? then 0
    else if log.entry.Requested? && log.entry.generation > NewestAsked(log.before) then log.entry.generation
    else NewestAsked(log.before)
  }

  lemma {:induction false} LaterNeverAsked(log: Log, g: nat)
    requires g > NewestAsked(log)
    ensures DebtOf(log, g) == Unasked
  {
    if log.Log? { LaterNeverAsked(log.before, g); }
  }

  /** The current generation keeps having asked. */
  ghost predicate StillAsked(s: State, t: State) {
    DebtOf(s.log, s.generation) != Unasked ==> DebtOf(t.log, s.generation) != Unasked
  }

  /** The one live activation is bound to serve the current generation. */
  ghost predicate PassOwes(s: State)
    requires SingleFlight(s)
  {
    && |s.passes| == 1
    && ((s.catchUpPending && s.catchUpGeneration == s.generation)
        || (s.passes[0].BackingOff? && s.passes[0].generation == s.generation))
  }

  ghost predicate DebtsCovered(s: State)
    requires SingleFlight(s)
  {
    var debt := DebtOf(s.log, s.generation);
    && NewestAsked(s.log) <= s.generation
    && (debt == Owed ==> s.aborted || PassOwes(s))
    && (debt == Serving ==> s.passes == [Fetching(s.generation)])
    && (s.passes != [] && s.passes[0].generation == s.generation ==>
          debt == if s.passes[0].Fetching? && !s.catchUpPending then Serving else Owed)
    && (s.catchUpPending && s.catchUpGeneration == s.generation ==> debt == Owed)
  }

  ghost predicate CatchUp(s: State) {
    Shape(s) && DebtsCovered(s)
  }

  /** One more entry, seen from generation `g`. */
  lemma Entered(before: Log, e: Entry, g: nat)
    ensures DebtOf(Log(before, e), g) == AfterEntry(DebtOf(before, g), e, g)
    ensures NewestAsked(Log(before, e)) ==
      if e.Requested? && e.generation > NewestAsked(before) then e.generation else NewestAsked(before)
  {
  }

  lemma ScheduleKeeps(s: State, g: nat)
    requires CatchUp(s)
    ensures CatchUp(ScheduleCatchUp(s, g)) && StillAsked(s, ScheduleCatchUp(s, g))
    ensures !s.aborted && g == s.generation ==>
      DebtOf(ScheduleCatchUp(s, g).log, g) == if s.catchUpInFlight then Owed else Serving
  {
    var asked := Log(s.log, Requested(g));
    Entered(s.log, Requested(g), s.generation);
    Entered(asked, CancelFetches, s.generation);
    Entered(asked, FetchStarted(g), s.generation);
  }

  lemma FetchOkKeeps(cfg: Config, s: State)
    requires CatchUp(s) && |s.passes| == 1 && s.passes[0].Fetching?
    ensures CatchUp(FetchOk(cfg, s, 0)) && StillAsked(s, FetchOk(cfg, s, 0))
  {
    var done := FetchSucceeded(s.passes[0].generation);
    Entered(s.log, done, s.generation);
    Entered(Log(s.log, done), FetchStarted(s.generation), s.generation);
  }

  /** A rejection that is no failure: aborted, cancelled or superseded. */
  lemma FetchDroppedKeeps(s: State, cancelled: bool)
    requires CatchUp(s) && |s.passes| == 1 && s.passes[0].Fetching?
    requires s.aborted || cancelled || s.passes[0].generation != s.generation
    ensures CatchUp(FetchFailed(s, 0, cancelled)) && StillAsked(s, FetchFailed(s, 0, cancelled))
  {
    var done := FetchRejected(s.passes[0].generation);
    Entered(s.log, done, s.generation);
    Entered(Log(s.log, done), FetchStarted(s.generation), s.generation);
  }

  lemma FetchErrorKeeps(s: State)
    requires CatchUp(s) && s.passes == [Fetching(s.generation)] && !s.aborted
    ensures CatchUp(FetchFailed(s, 0, false)) && StillAsked(s, FetchFailed(s, 0, false))
  {
    var done := FetchRejected(s.generation);
    Entered(s.log, done, s.generation);
    Entered(Log(s.log, done), CatchUpFailure(s.generation, s.catchUpRetryDelayMs), s.generation);
  }

  lemma FetchFailedKeeps(s: State, cancelled: bool)
    requires CatchUp(s) && |s.passes| == 1 && s.passes[0].Fetching?
    ensures CatchUp(FetchFailed(s, 0, cancelled)) && StillAsked(s, FetchFailed(s, 0, cancelled))
  {
    if s.aborted || cancelled || s.passes[0].generation != s.generation {
      FetchDroppedKeeps(s, cancelled);
    } else {
      assert s.passes == [Fetching(s.generation)];
      FetchErrorKeeps(s);
    }
  }

  lemma BackoffOverKeeps(s: State)
    requires CatchUp(s) && |s.passes| == 1 && s.passes[0].BackingOff?
    ensures CatchUp(BackoffOver(s, 0)) && StillAsked(s, BackoffOver(s, 0))
  {
    Entered(s.log, FetchStarted(s.generation), s.generation);
  }

  lemma AttemptEntered(log: Log, g: nat, h: nat)
    ensures var started := Log(log, Attempt(g));
      var announced := Log(Log(started, Reconnect(g)), CancelFetches);
      && DebtOf(started, h) == DebtOf(announced, h) == DebtOf(log, h)
      && NewestAsked(started) == NewestAsked(announced) == NewestAsked(log)
  {
    Entered(log, Attempt(g), h);
    Entered(Log(log, Attempt(g)), Reconnect(g), h);
    Entered(Log(Log(log, Attempt(g)), Reconnect(g)), CancelFetches, h);
  }

  lemma BeginAttemptKeeps(cfg: Config, s: State)
    requires CatchUp(s)
    ensures CatchUp(BeginAttempt(cfg, s)) && StillAsked(s, BeginAttempt(cfg, s))
  {
    AttemptEntered(s.log, s.generation + 1, s.generation);
    AttemptEntered(s.log, s.generation + 1, s.generation + 1);
    LaterNeverAsked(s.log, s.generation + 1);
  }

  lemma SettledKeeps(cfg: Config, s: State, outcome: Outcome)
    requires CatchUp(s) && s.connection.Streaming?
    ensures CatchUp(StreamSettled(cfg, s, outcome)) && StillAsked(s, StreamSettled(cfg, s, outcome))
  {
    var t := if outcome.ThrewStale? then Log(s.log, WentStale(s.generation, outcome.heartbeatAgeMs)) else s.log;
    var gone := Disconnect(s.generation, ReasonOf(outcome), HeartbeatAge(s, outcome, s.connection.markedHealthy));
    if outcome.ThrewStale? { Entered(s.log, t.entry, s.generation); }
    Entered(t, gone, s.generation);
  }

  lemma SetUnavailableKeeps(s: State, next: bool)
    requires CatchUp(s)
    ensures CatchUp(SetUnavailable(s, next)) && StillAsked(s, SetUnavailable(s, next))
  {
    Entered(s.log, WarningShown(next), s.generation);
  }

  lemma HealthyKeeps(s: State, g: nat)
    requires CatchUp(s)
    ensures CatchUp(MarkTransportHealthy(s, g)) && StillAsked(s, MarkTransportHealthy(s, g))
    ensures MarkTransportHealthy(s, g).generation == s.generation && MarkTransportHealthy(s, g).aborted == s.aborted
  {
    SetUnavailableKeeps(s, false);
  }

  lemma ConnectEntryKeeps(s: State, g: nat)
    requires CatchUp(s)
    ensures var t := s.(log := Log(s.log, Connect(g)));
      CatchUp(t) && DebtOf(t.log, s.generation) == DebtOf(s.log, s.generation)
  {
    Entered(s.log, Connect(g), s.generation);
  }

  lemma ConnectedKeeps(s: State, g: nat)
    requires CatchUp(s) && (g == s.generation ==> s.connection.Streaming?)
    ensures CatchUp(Connected(s, g)) && StillAsked(s, Connected(s, g))
    ensures g == s.generation && !s.aborted ==>
      DebtOf(Connected(s, g).log, g) == if s.catchUpInFlight then Owed else Serving
  {
    if g == s.generation {
      var h := MarkTransportHealthy(s, g).(connection := Streaming(true));
      HealthyKeeps(s, g);
      ScheduleKeeps(h, g);
      ConnectEntryKeeps(ScheduleCatchUp(h, g), g);
    }
  }

  lemma AbortKeeps(s: State)
    requires CatchUp(s)
    ensures CatchUp(Abort(s)) && Abort(s).log == s.log
  {
  }

  ghost predicate StepKept(s: State, t: State) { CatchUp(t) && StillAsked(s, t) }

  lemma CallbackKeeps(cfg: Config, s: State, e: Event)
    requires Enabled(s, e) && CatchUp(s) && IsCallback(e)
    ensures StepKept(s, Next(cfg, s, e))
  {
    match e
    case OnConnected(g) => ConnectedKeeps(s, g);
    case OnChange(g) => if g == s.generation { ScheduleKeeps(s.(lastActivityAt := Some(s.now)), g); }
    case OnActivity(g) =>
    case OnVisibilityChange(visible) => if visible { ScheduleKeeps(s, s.generation); }
  }

  lemma SliceKeeps(cfg: Config, s: State, e: Event)
    requires Enabled(s, e) && CatchUp(s) && IsSlice(e)
    ensures StepKept(s, Next(cfg, s, e))
  {
    match e
    case OnFetchOk(i) => FetchOkKeeps(cfg, s);
    case OnFetchFailed(i, cancelled) => FetchFailedKeeps(s, cancelled);
    case OnBackoffOver(i) => BackoffOverKeeps(s);
  }

  lemma OtherKeeps(cfg: Config, s: State, e: Event)
    requires Enabled(s, e) && CatchUp(s) && !IsCallback(e) && !IsSlice(e)
    ensures StepKept(s, Next(cfg, s, e))
  {
    match e
    case OnSettled(outcome) => SettledKeeps(cfg, s, outcome);
    case OnReconnectWait => if !s.aborted { BeginAttemptKeeps(cfg, s); }
    case OnWarningTimer => SetUnavailableKeeps(s.(warningTimer := s.warningTimer.(fired := true)), true);
    case OnAbort => AbortKeeps(s);
    case Elapse(ms) =>
  }

  lemma StepKeepsCatchUp(cfg: Config, s: State, e: Event)
    requires Enabled(s, e) && CatchUp(s)
    ensures StepKept(s, Next(cfg, s, e))
  {
    if IsCallback(e) {
      CallbackKeeps(cfg, s, e);
    } else if IsSlice(e) {
      SliceKeeps(cfg, s, e);
    } else {
      OtherKeeps(cfg, s, e);
    }
  }

  /** One step of a run, without its transition. */
  lemma StepAt(cfg: Config, states: seq<State>, events: seq<Event>, i: nat)
    requires IsRun(cfg, states, events) && i < |events| && CatchUp(states[i])
    ensures StepKept(states[i], states[i + 1])
  {
    MembershipTransport.StepAt(cfg, states, events, i);
    StepKeepsCatchUp(cfg, states[i], events[i]);
  }

  lemma StartIsOk(cfg: Config, now: nat, aborted: bool)
    ensures CatchUp(Start(cfg, now, aborted))
  {
    Entered(Empty, Attempt(1), 1);
  }

  lemma {:induction false} RunKeepsCatchUp(cfg: Config, states: seq<State>, events: seq<Event>, i: nat)
    requires IsRun(cfg, states, events) && i < |states|
    ensures CatchUp(states[i])
  {
    if i > 0 {
      RunKeepsCatchUp(cfg, states, events, i - 1);
      StepAt(cfg, states, events, i - 1);
    } else {
      var now, aborted :| states[0] == Start(cfg, now, aborted);
      StartIsOk(cfg, now, aborted);
    }
  }

  /** At most one activation of the loop is alive, so at most one fetch is open, and the handle tells. */
  lemma HandleMeansOneLivePass(cfg: Config, states: seq<State>, events: seq<Event>, i: nat)
    requires IsRun(cfg, states, events) && i < |states|
    ensures |states[i].passes| <= 1
    ensures states[i].catchUpInFlight <==> |states[i].passes| == 1
  {
    RunKeepsCatchUp(cfg, states, events, i);
  }

  /** Health lasts only within a generation, and begins with its connect callback. */
  lemma HealthStaysInGeneration(cfg: Config, s: State, e: Event)
    requires Enabled(s, e) && MembershipTransport.Transport(s) && Next(cfg, s, e).transportHealthy && !s.aborted
    ensures Next(cfg, s, e).generation == s.generation
    ensures !s.transportHealthy ==> e == OnConnected(s.generation)
  {
    if !MembershipTransport.TouchesTransport(s, e) {
      MembershipTransport.OthersLeaveTransport(cfg, s, e);
    } else if e.OnConnected? {
      MembershipTransport.ConnectedMovesTransport(s, e.forGeneration);
    }
  }

  /** A healthy, unaborted state has asked for a catch-up of its generation. */
  ghost predicate HasAsked(s: State) {
    s.transportHealthy && !s.aborted ==> DebtOf(s.log, s.generation) != Unasked
  }

  lemma AskedAt(cfg: Config, states: seq<State>, events: seq<Event>, i: nat)
    requires IsRun(cfg, states, events) && i < |events| && HasAsked(states[i])
    ensures HasAsked(states[i + 1])
  {
    var s, e, t := states[i], events[i], states[i + 1];
    MembershipTransport.StepAt(cfg, states, events, i);
    RunKeepsCatchUp(cfg, states, events, i);
    MembershipTransport.RunKeepsTransport(cfg, states, events, i);
    AskedStep(cfg, s, e);
  }

  lemma AbortIsFinal(cfg: Config, s: State, e: Event)
    requires Enabled(s, e) && s.aborted
    ensures Next(cfg, s, e).aborted
  {
  }

  lemma AskedStep(cfg: Config, s: State, e: Event)
    requires Enabled(s, e) && CatchUp(s) && MembershipTransport.Transport(s) && HasAsked(s)
    ensures HasAsked(Next(cfg, s, e))
  {
    var t := Next(cfg, s, e);
    if s.aborted {
      AbortIsFinal(cfg, s, e);
    } else if t.transportHealthy {
      HealthStaysInGeneration(cfg, s, e);
      if s.transportHealthy {
        StepKeepsCatchUp(cfg, s, e);
      } else {
        ConnectedKeeps(s, s.generation);
      }
    }
  }

  /** Every healthy step has asked for a catch-up of its own generation. */
  lemma {:induction false} HealthyHasAsked(cfg: Config, states: seq<State>, events: seq<Event>, i: nat)
    requires IsRun(cfg, states, events) && i < |states|
    ensures HasAsked(states[i])
  {
    if i > 0 {
      HealthyHasAsked(cfg, states, events, i - 1);
      AskedAt(cfg, states, events, i - 1);
    }
  }

  /** What the log tells: an unserved request is with the one live activation, and an idle loop owes nothing. */
  lemma LogDebtsAreCovered(cfg: Config, states: seq<State>, events: seq<Event>, i: nat)
    requires IsRun(cfg, states, events) && i < |states| && !states[i].aborted
    ensures var s := states[i];
      var debt := DebtOf(s.log, s.generation);
      && (debt == Owed ==> SingleFlight(s) && PassOwes(s))
      && (debt == Serving ==> s.passes == [Fetching(s.generation)])
      && (s.passes == [] ==> debt in {Unasked, Paid})
      && (s.passes == [] && s.transportHealthy ==> debt == Paid)
  {
    RunKeepsCatchUp(cfg, states, events, i);
    if states[i].transportHealthy {
      HealthyHasAsked(cfg, states, events, i);
    }
  }

  // ----- no notification is lost, told by events and fetches alone -----

  /** A callback of the current attempt, or the tab becoming visible, that asks for a catch-up. */
  predicate Asks(s: State, e: Event) {
    !s.aborted && (e == OnConnected(s.generation) || e == OnChange(s.generation) || e == OnVisibilityChange(true))
  }

  predicate EndsFetch(e: Event) { e.OnFetchOk? || e.OnFetchFailed? }

  /** What a step does to the open membership fetch; only fetches of the current generation count as opened. */
  function TurnOf(s: State, e: Event, t: State): Turn {
    Turn(EndsFetch(e), e.OnFetchOk?, t.passes == [Fetching(t.generation)] && (s.passes != t.passes || EndsFetch(e)))
  }

  function Turns(states: seq<State>, events: seq<Event>): (r: seq<Turn>)
    requires |states| == |events| + 1
    ensures |r| == |events|
  {
    seq(|events|, i requires 0 <= i < |events| => TurnOf(states[i], events[i], states[i + 1]))
  }

  /** A request that joins an open activation is owed by it; any other opens a fetch at once. */
  lemma AskIsTaken(cfg: Config, s: State, e: Event)
    requires CatchUp(s) && Enabled(s, e) && Asks(s, e)
    ensures var t := Next(cfg, s, e);
      && t.generation == s.generation
      && DebtOf(t.log, s.generation) == (if s.passes != [] then Owed else Serving)
      && if s.passes != [] then CatchUp(t) && PassOwes(t) else TurnOf(s, e, t).opens
  {
    StepKeepsCatchUp(cfg, s, e);
    match e
    case OnConnected(g) => ConnectedKeeps(s, g);
    case OnChange(g) => ScheduleKeeps(s.(lastActivityAt := Some(s.now)), g);
    case OnVisibilityChange(_) => ScheduleKeeps(s, s.generation);
  }

  /** The slices of the loop: whatever ends a fetch or a wait without success leaves it owed or starts the next fetch. */
  lemma SliceOwes(cfg: Config, s: State, e: Event)
    requires CatchUp(s) && Enabled(s, e) && (EndsFetch(e) || e.OnBackoffOver?) && !s.aborted
    requires PassOwes(s) || (s.passes == [Fetching(s.generation)] && !e.OnFetchOk?)
    ensures var t := Next(cfg, s, e);
      t.generation == s.generation && (TurnOf(s, e, t).opens || (SingleFlight(t) && PassOwes(t)))
  {
    StepKeepsCatchUp(cfg, s, e);
  }

  lemma ConnectedOwes(s: State, g: nat)
    requires CatchUp(s) && Enabled(s, OnConnected(g))
    ensures var t := Connected(s, g);
      && (PassOwes(s) ==> SingleFlight(t) && PassOwes(t))
      && (s.passes == [Fetching(s.generation)] ==> t.passes == s.passes)
  {
    if g == s.generation {
      var h := MarkTransportHealthy(s, g).(connection := Streaming(true));
      assert h.passes == s.passes && h.catchUpPending == s.catchUpPending && h.catchUpInFlight == s.catchUpInFlight;
    }
  }

  /** Anything else leaves an open fetch open and a debt owed, while the generation lasts. */
  lemma OthersOwe(cfg: Config, s: State, e: Event)
    requires CatchUp(s) && Enabled(s, e) && !EndsFetch(e) && !e.OnBackoffOver?
    requires Next(cfg, s, e).generation == s.generation && !Next(cfg, s, e).aborted
    ensures var t := Next(cfg, s, e);
      && (PassOwes(s) ==> SingleFlight(t) && PassOwes(t))
      && (s.passes == [Fetching(s.generation)] ==> t.passes == s.passes)
  {
    match e {
      case OnConnected(g) => ConnectedOwes(s, g);
      case _ =>
    }
  }

  lemma GenerationGrows(cfg: Config, s: State, e: Event)
    requires Enabled(s, e)
    ensures s.generation <= Next(cfg, s, e).generation
  {
    if !MembershipTransport.TouchesTransport(s, e) {
      MembershipTransport.OthersLeaveTransport(cfg, s, e);
    } else if e.OnConnected? {
      MembershipTransport.ConnectedMovesTransport(s, e.forGeneration);
    }
  }

  lemma {:induction false} GenerationsGrow(cfg: Config, states: seq<State>, events: seq<Event>, i: nat, j: nat)
    requires IsRun(cfg, states, events) && i <= j < |states|
    ensures states[i].generation <= states[j].generation
    ensures states[i].aborted ==> states[j].aborted
  {
    if i < j {
      GenerationsGrow(cfg, states, events, i, j - 1);
      MembershipTransport.StepAt(cfg, states, events, j - 1);
      GenerationGrows(cfg, states[j - 1], events[j - 1]);
      if states[j - 1].aborted { AbortIsFinal(cfg, states[j - 1], events[j - 1]); }
    }
  }

  /** A request was made at step `r`, and its generation has lasted unaborted until step `i`. */
  ghost predicate AskedSince(states: seq<State>, events: seq<Event>, r: nat, i: nat) {
    && |states| == |events| + 1 && r < i < |states| && Asks(states[r], events[r])
    && states[i].generation == states[r].generation && !states[i].aborted
  }

  /**
   * What has become before step `i` of a request made at step `r`: a fetch that started at or after that step has
   * succeeded, or the open fetch is such a one, or the one live activation still owes one.
   */
  ghost predicate RequestKept(states: seq<State>, events: seq<Event>, r: nat, i: nat)
    requires AskedSince(states, events, r, i)
  {
    KeptBy(Turns(states, events), states[i], r, i)
  }

  ghost predicate KeptBy(turns: seq<Turn>, s: State, r: nat, i: nat)
    requires i <= |turns|
  {
    || Served(turns, r, i)
    || (InService(turns, r, i) && s.passes == [Fetching(s.generation)])
    || (SingleFlight(s) && PassOwes(s))
  }

  lemma AskedBefore(cfg: Config, states: seq<State>, events: seq<Event>, r: nat, i: nat)
    requires IsRun(cfg, states, events) && AskedSince(states, events, r, i + 1) && r < i
    ensures AskedSince(states, events, r, i)
  {
    GenerationsGrow(cfg, states, events, r, i);
    GenerationsGrow(cfg, states, events, i, i + 1);
  }

  lemma KeptFirst(cfg: Config, states: seq<State>, events: seq<Event>, r: nat)
    requires IsRun(cfg, states, events) && r < |events| && Asks(states[r], events[r])
    ensures KeptAfter(states, events, r, r + 1)
  {
    RunKeepsCatchUp(cfg, states, events, r);
    MembershipTransport.StepAt(cfg, states, events, r);
    AskIsTaken(cfg, states[r], events[r]);
    if states[r].passes == [] { OpensServes(Turns(states, events), r, r); }
  }

  lemma KeptAt(cfg: Config, states: seq<State>, events: seq<Event>, r: nat, i: nat)
    requires IsRun(cfg, states, events) && AskedSince(states, events, r, i) && AskedSince(states, events, r, i + 1)
    requires RequestKept(states, events, r, i)
    ensures RequestKept(states, events, r, i + 1)
  {
    var s, e, turns := states[i], events[i], Turns(states, events);
    RunKeepsCatchUp(cfg, states, events, i);
    MembershipTransport.StepAt(cfg, states, events, i);
    if Served(turns, r, i) {
      ServedStays(turns, r, i);
    } else {
      if turns[i].opens { OpensServes(turns, r, i); }
      if InService(turns, r, i) { ServiceGoesOn(turns, r, i); }
      if !EndsFetch(e) && !e.OnBackoffOver? {
        OthersOwe(cfg, s, e);
      } else if PassOwes(s) || !e.OnFetchOk? {
        SliceOwes(cfg, s, e);
      }
    }
  }

  /** The log has the request as well: owed behind an open fetch or a wait, else in service at once. */
  lemma RequestIsLogged(cfg: Config, states: seq<State>, events: seq<Event>, r: nat)
    requires IsRun(cfg, states, events) && r < |events| && Asks(states[r], events[r])
    ensures DebtOf(states[r + 1].log, states[r].generation) == if states[r].passes != [] then Owed else Serving
  {
    RunKeepsCatchUp(cfg, states, events, r);
    MembershipTransport.StepAt(cfg, states, events, r);
    AskIsTaken(cfg, states[r], events[r]);
  }

  ghost predicate KeptAfter(states: seq<State>, events: seq<Event>, r: nat, i: nat) {
    AskedSince(states, events, r, i) ==> RequestKept(states, events, r, i)
  }

  lemma KeptStep(cfg: Config, states: seq<State>, events: seq<Event>, r: nat, i: nat)
    requires IsRun(cfg, states, events) && r < i < |events| && KeptAfter(states, events, r, i)
    ensures KeptAfter(states, events, r, i + 1)
  {
    if AskedSince(states, events, r, i + 1) {
      AskedBefore(cfg, states, events, r, i);
      KeptAt(cfg, states, events, r, i);
    }
  }

  lemma {:induction false} KeptOnward(cfg: Config, states: seq<State>, events: seq<Event>, r: nat, i: nat)
    requires IsRun(cfg, states, events) && r < i < |states| && Asks(states[r], events[r])
    ensures KeptAfter(states, events, r, i)
    decreases i
  {
    if i == r + 1 {
      KeptFirst(cfg, states, events, r);
    } else {
      KeptOnward(cfg, states, events, r, i - 1);
      KeptStep(cfg, states, events, r, i - 1);
    }
  }

  /** No notification is lost: what became of any callback of the current attempt, or return to a visible tab, at step `r`. */
  lemma NoLostNotification(cfg: Config, states: seq<State>, events: seq<Event>, r: nat, i: nat)
    requires IsRun(cfg, states, events) && AskedSince(states, events, r, i)
    ensures RequestKept(states, events, r, i)
  {
    KeptOnward(cfg, states, events, r, i);
  }

  /** An idle loop has served every request of the generation. */
  lemma IdleMeansServed(cfg: Config, states: seq<State>, events: seq<Event>, r: nat, i: nat)
    requires IsRun(cfg, states, events) && AskedSince(states, events, r, i) && !states[i].catchUpInFlight
    ensures Served(Turns(states, events), r, i)
  {
    RunKeepsCatchUp(cfg, states, events, i);
    NoLostNotification(cfg, states, events, r, i);
  }

  /** Health began with a connect callback of the same generation, which asked. */
  lemma {:induction false} HealthyAskedAt(cfg: Config, states: seq<State>, events: seq<Event>, i: nat) returns (r: nat)
    requires IsRun(cfg, states, events) && i < |states| && states[i].transportHealthy && !states[i].aborted
    ensures r < i && events[r] == OnConnected(states[i].generation) && AskedSince(states, events, r, i)
  {
    r := 0;
    if i > 0 {
      MembershipTransport.RunKeepsTransport(cfg, states, events, i - 1);
      GenerationsGrow(cfg, states, events, i - 1, i);
      MembershipTransport.StepAt(cfg, states, events, i - 1);
      HealthStaysInGeneration(cfg, states[i - 1], events[i - 1]);
      if states[i - 1].transportHealthy {
        r := HealthyAskedAt(cfg, states, events, i - 1);
      } else {
        r := i - 1;
      }
    }
  }

  // ----- what `Paid` says about the log, and how fast a debt is settled -----

  function Entries(log: Log): (r: seq<Entry>) {
    if log.Empty? then [] else Entries(log.before) + [log.entry]
  }

  ghost predicate LastRequest(es: seq<Entry>, g: nat, r: nat) {
    && r < |es| && es[r] == Requested(g)
    && forall i :: r < i < |es| ==> es[i] != Requested(g)
  }

  /** What the debt says about the order of the log. */
  ghost predicate Means(debt: Debt, es: seq<Entry>, g: nat, r: nat, start: nat, done: nat) {
    && (debt == Unasked <==> Requested(g) !in es)
    && (debt != Unasked ==> LastRequest(es, g, r))
    && (debt in {Serving, Paid} ==> r < start < |es| && es[start] == FetchStarted(g))
    && (debt == Paid ==> start < done < |es| && es[done] == FetchSucceeded(g))
  }

  lemma MeansAfter(debt: Debt, es: seq<Entry>, e: Entry, g: nat, r: nat, start: nat, done: nat)
    requires Means(debt, es, g, r, start, done)
    ensures Means(AfterEntry(debt, e, g), es + [e], g,
                  if e == Requested(g) then |es| else r,
                  if e == FetchStarted(g) && debt == Owed then |es| else start,
                  if e == FetchSucceeded(g) && debt == Serving then |es| else done)
  {
  }

  /** `Owed`, `Serving` and `Paid` name the last request; `Serving` and `Paid` a fetch started after it. */
  lemma {:induction false} DebtMeaning(log: Log, g: nat) returns (r: nat, start: nat, done: nat)
    ensures Means(DebtOf(log, g), Entries(log), g, r, start, done)
  {
    r, start, done := 0, 0, 0;
    if log.Log? {
      r, start, done := DebtMeaning(log.before, g);
      var es, debt, e := Entries(log.before), DebtOf(log.before, g), log.entry;
      MeansAfter(debt, es, e, g, r, start, done);
      r := if e == Requested(g) then |es| else r;
      start := if e == FetchStarted(g) && debt == Owed then |es| else start;
      done := if e == FetchSucceeded(g) && debt == Serving then |es| else done;
    }
  }

  /** The next slice of the live activation when its fetch succeeds or its wait is over. */
  function Drive(cfg: Config, s: State): State
    requires |s.passes| == 1 && !s.passes[0].Running?
  {
    if s.passes[0].Fetching? then FetchOk(cfg, s, 0) else BackoffOver(s, 0)
  }

  ghost predicate Settled(s: State) {
    s.passes == [] && DebtOf(s.log, s.generation) in {Unasked, Paid}
  }

  lemma OneSlice(cfg: Config, s: State)
    requires CatchUp(s) && !s.aborted && s.passes != []
    ensures var t := Drive(cfg, s);
      CatchUp(t) && !t.aborted && (Settled(t) || (t.passes == [Fetching(t.generation)] && !t.catchUpPending))
    ensures s.passes == [Fetching(s.generation)] && !s.catchUpPending ==> Settled(Drive(cfg, s))
  {
    if s.passes[0].Fetching? {
      FetchOkKeeps(cfg, s);
      Entered(s.log, FetchSucceeded(s.passes[0].generation), s.generation);
    } else {
      BackoffOverKeeps(s);
    }
  }

  /** With no further requests, two slices settle every debt: a wait or an earlier fetch, then one more fetch. */
  lemma TwoSlicesSettle(cfg: Config, s: State)
    requires CatchUp(s) && !s.aborted && s.passes != []
    ensures var t := Drive(cfg, s);
      Settled(t) || (|t.passes| == 1 && !t.passes[0].Running? && Settled(Drive(cfg, t)))
  {
    OneSlice(cfg, s);
    var t := Drive(cfg, s);
    if t.passes != [] {
      OneSlice(cfg, t);
    }
  }
}
