/**
 * What becomes of every request of the work-items follower, told by its events and by the passes that its three
 * loops have open: no notification, connection or return to a visible tab is dropped.
 */
module WorkItemsRequests {
  import opened Options
  import opened Debts
  import opened DebtLogs
  import opened Service
  import opened WorkItemsFollower
  import opened WorkItemsFollowerProofs
  import C = CommittedCounts
  import P = CommittedCountsProofs
  import F = FullRefresh
  import O = OpenCounts

  /** The events that need fresh counts: a change, a new connection, and every start of a whole refresh. */
  predicate AsksCounts(s: State, e: Event) {
    && !s.counts.aborted
    && (e == OnChange || e == OnConnected || e == OnFullDelay || (e == OnVisible && s.full.passes == [])
        || (e == OnFull(true) && s.full.pending))
  }

  // ----- what each step does to the three loops -----

  function CountTurn(s: State, e: Event, t: State): Turn {
    Turn(e.OnCountPass?, e == OnCountPass(true), t.counts.runs != [] && (s.counts.runs == [] || e.OnCountPass?))
  }

  function OpenTurn(s: State, e: Event, t: State): Turn {
    Turn(e.OnOpenPass?, e == OnOpenPass(true), t.open.passes > 0 && (s.open.passes == 0 || e.OnOpenPass?))
  }

  predicate IsRefreshing(full: F.State) { full.passes != [] && full.passes[0].Refreshing? }

  function FullTurn(s: State, e: Event, t: State): Turn {
    Turn(e.OnFull?, e == OnFull(true), IsRefreshing(t.full) && (!IsRefreshing(s.full) || e.OnFull?))
  }

  /** The turns of one loop over a run. */
  function Turns(states: seq<State>, events: seq<Event>, turnOf: (State, Event, State) -> Turn): (r: seq<Turn>)
    requires |states| == |events| + 1
    ensures |r| == |events|
  {
    seq(|events|, i requires 0 <= i < |events| => turnOf(states[i], events[i], states[i + 1]))
  }

  /** What a step of the follower is to the count coalescer. */
  function CountEvent(s: State, e: Event): Option<C.Event> {
    match e
    case OnChange => Some(C.OnChange)
    case OnCountPass(ok) => Some(C.OnPass(0, ok))
    case OnRetry => Some(C.OnRetry(0))
    case OnRetryDelay => Some(C.OnDelay(0))
    case OnAbort => Some(C.OnAbort)
    case _ => if AsksCounts(s, e) then Some(C.OnDirect) else None
  }

  lemma CountStep(s: State, e: Event)
    requires Inv(s) && Enabled(s, e)
    ensures var c := CountEvent(s, e);
      if c.Some? then C.Enabled(s.counts, c.value) && Next(s, e).counts == C.Next(s.counts, c.value)
      else Next(s, e).counts == s.counts
  {
  }

  // ----- committed counts -----

  /** A request made behind an open pass is due; any other opens a pass at once or is due. */
  lemma CountAskIsTaken(s: State, e: Event)
    requires Inv(s) && Enabled(s, e) && AsksCounts(s, e)
    ensures var t := Next(s, e);
      && !t.counts.aborted && (if s.counts.runs != [] then P.Due(t.counts) else P.Due(t.counts) || CountTurn(s, e, t).opens)
      && (e == OnChange ==> DebtOf(t.counts.scheduled) == if t.counts.pending then Owed else Serving)
  {
    CountStep(s, e);
    P.AskIsTaken(s.counts, CountEvent(s, e).value);
  }

  lemma CountsGoOn(s: State, e: Event)
    requires Inv(s) && Enabled(s, e) && !Next(s, e).counts.aborted
    ensures var t := Next(s, e);
      && (P.Due(s.counts) ==> P.Due(t.counts) || CountTurn(s, e, t).opens)
      && (s.counts.runs != [] && !e.OnCountPass? ==> t.counts.runs != [])
      && (e == OnCountPass(false) ==> CountTurn(s, e, t).opens || P.LastFailed(t.counts))
      && (P.LastFailed(s.counts) ==> P.LastFailed(t.counts) || CountTurn(s, e, t).opens || P.Due(t.counts))
  {
    CountStep(s, e);
    if CountEvent(s, e).Some? { P.GoesOn(s.counts, CountEvent(s, e).value); }
  }

  ghost predicate CountsAskedSince(states: seq<State>, events: seq<Event>, r: nat, i: nat) {
    |states| == |events| + 1 && r < i < |states| && AsksCounts(states[r], events[r]) && !states[i].counts.aborted
  }

  /**
   * What has become before step `i` of a request for counts made at step `r`: a pass that started at or after that
   * step has succeeded or is open, or one is due, or the newest refresh has failed and somebody reacts to just that.
   */
  ghost predicate CountsKept(states: seq<State>, events: seq<Event>, r: nat, i: nat)
    requires CountsAskedSince(states, events, r, i)
  {
    var turns, s := Turns(states, events, CountTurn), states[i];
    || Served(turns, r, i)
    || (InService(turns, r, i) && s.counts.runs != [])
    || P.Due(s.counts)
    || (P.LastFailed(s.counts) && HasRetrier(s))
  }

  ghost predicate CountsKeptAfter(states: seq<State>, events: seq<Event>, r: nat, i: nat) {
    CountsAskedSince(states, events, r, i) ==> CountsKept(states, events, r, i)
  }

  lemma CountsFirst(states: seq<State>, events: seq<Event>, r: nat)
    requires IsRun(states, events) && r < |events| && AsksCounts(states[r], events[r])
    ensures CountsKeptAfter(states, events, r, r + 1)
  {
    RunKeeps(states, events, r);
    assert Follows(states, events, r);
    CountAskIsTaken(states[r], events[r]);
    if CountTurn(states[r], events[r], states[r + 1]).opens { OpensServes(Turns(states, events, CountTurn), r, r); }
  }

  lemma CountsOn(states: seq<State>, events: seq<Event>, r: nat, i: nat)
    requires IsRun(states, events) && r < i < |events| && CountsKeptAfter(states, events, r, i)
    ensures CountsKeptAfter(states, events, r, i + 1)
  {
    var s, e, turns := states[i], events[i], Turns(states, events, CountTurn);
    assert Follows(states, events, i);
    if CountsAskedSince(states, events, r, i + 1) {
      RunKeeps(states, events, i + 1);
      RunKeeps(states, events, i);
      CountsGoOn(s, e);
      if Served(turns, r, i) {
        ServedStays(turns, r, i);
      } else {
        if turns[i].opens { OpensServes(turns, r, i); }
        if InService(turns, r, i) { ServiceGoesOn(turns, r, i); }
      }
    }
  }

  /** Every change, connection and start of a whole refresh is followed by a successful count pass, or somebody sees to it. */
  lemma {:induction false} EveryRequestIsLookedAfter(states: seq<State>, events: seq<Event>, r: nat, i: nat)
    requires IsRun(states, events) && r < i < |states| && AsksCounts(states[r], events[r])
    ensures CountsKeptAfter(states, events, r, i)
    decreases i
  {
    if i == r + 1 {
      CountsFirst(states, events, r);
    } else {
      EveryRequestIsLookedAfter(states, events, r, i - 1);
      CountsOn(states, events, r, i - 1);
    }
  }

  /** A change is in the log of scheduled requests: owed while a pass is due, else in service at once. */
  lemma ChangeIsScheduled(states: seq<State>, events: seq<Event>, r: nat)
    requires IsRun(states, events) && r < |events| && events[r] == OnChange && !states[r].counts.aborted
    ensures var t := states[r + 1].counts;
      DebtOf(t.scheduled) == (if t.pending then Owed else Serving) && (states[r].counts.runs != [] ==> t.pending)
  {
    RunKeeps(states, events, r);
    assert Follows(states, events, r);
    CountAskIsTaken(states[r], events[r]);
  }

  // ----- open counts -----

  lemma OpenGoesOn(s: State, e: Event)
    requires Inv(s) && Enabled(s, e) && !Next(s, e).counts.aborted
    ensures var t := Next(s, e);
      && (s.open.pending || AsksCounts(s, e) ==> OpenTurn(s, e, t).opens || (t.open.pending && t.open.passes > 0))
      && (AsksCounts(s, e) && s.open.passes > 0 ==> t.open.pending)
  {
  }

  ghost predicate OpenKept(states: seq<State>, events: seq<Event>, r: nat, i: nat)
    requires CountsAskedSince(states, events, r, i)
  {
    Begun(Turns(states, events, OpenTurn), r, i) || (states[i].open.pending && states[i].open.passes > 0)
  }

  lemma OpenStep(states: seq<State>, events: seq<Event>, r: nat, i: nat)
    requires IsRun(states, events) && CountsAskedSince(states, events, r, i + 1)
    requires r < i ==> CountsAskedSince(states, events, r, i) && OpenKept(states, events, r, i)
    ensures OpenKept(states, events, r, i + 1)
  {
    var turns := Turns(states, events, OpenTurn);
    RunKeeps(states, events, i);
    assert Follows(states, events, i);
    OpenGoesOn(states[i], events[i]);
    if r < i && Begun(turns, r, i) {
      var start :| r <= start < i && turns[start].opens;
      assert r <= start < i + 1 && turns[start].opens;
    } else if turns[i].opens {
      assert r <= i < i + 1 && turns[i].opens;
    }
  }

  lemma AskedBefore(states: seq<State>, events: seq<Event>, r: nat, i: nat)
    requires IsRun(states, events) && r < i && CountsAskedSince(states, events, r, i + 1)
    ensures CountsAskedSince(states, events, r, i)
  {
    RunKeeps(states, events, i);
    assert Follows(states, events, i);
    CountStep(states[i], events[i]);
  }

  /** After every such event an invalidation of the open counts starts, or a live loop holds one pending. */
  lemma {:induction false} EveryInvalidationHappens(states: seq<State>, events: seq<Event>, r: nat, i: nat)
    requires IsRun(states, events) && CountsAskedSince(states, events, r, i)
    ensures OpenKept(states, events, r, i)
    decreases i
  {
    if r + 1 < i {
      AskedBefore(states, events, r, i - 1);
      EveryInvalidationHappens(states, events, r, i - 1);
    }
    OpenStep(states, events, r, i - 1);
  }

  // ----- whole refreshes -----

  ghost predicate VisibleSince(states: seq<State>, events: seq<Event>, r: nat, i: nat) {
    |states| == |events| + 1 && r < i < |states| && events[r] == OnVisible && !states[i].counts.aborted
  }

  /** A whole refresh is due: behind the open one, or after the delay. */
  ghost predicate FullDue(s: State) { (s.full.pending && s.full.passes != []) || s.full.passes == [F.Delaying] }

  lemma FullGoesOn(s: State, e: Event)
    requires Inv(s) && Enabled(s, e) && !Next(s, e).counts.aborted
    ensures var t := Next(s, e);
      && !s.counts.aborted
      && (FullDue(s) ==> FullDue(t) || FullTurn(s, e, t).opens)
      && (IsRefreshing(s.full) && !e.OnFull? ==> IsRefreshing(t.full))
      && (e == OnFull(false) ==> FullDue(t))
      && (e == OnVisible ==> FullDue(t) || FullTurn(s, e, t).opens)
      && (e == OnVisible && IsRefreshing(s.full) ==> t.full.pending)
  {
  }

  ghost predicate FullKept(states: seq<State>, events: seq<Event>, r: nat, i: nat)
    requires VisibleSince(states, events, r, i)
  {
    var turns := Turns(states, events, FullTurn);
    Served(turns, r, i) || (InService(turns, r, i) && IsRefreshing(states[i].full)) || FullDue(states[i])
  }

  ghost predicate FullKeptAfter(states: seq<State>, events: seq<Event>, r: nat, i: nat) {
    VisibleSince(states, events, r, i) ==> FullKept(states, events, r, i)
  }

  lemma FullFirst(states: seq<State>, events: seq<Event>, r: nat)
    requires IsRun(states, events) && r < |events| && events[r] == OnVisible
    ensures FullKeptAfter(states, events, r, r + 1)
  {
    RunKeeps(states, events, r);
    assert Follows(states, events, r);
    if VisibleSince(states, events, r, r + 1) {
      FullGoesOn(states[r], events[r]);
      if FullTurn(states[r], events[r], states[r + 1]).opens { OpensServes(Turns(states, events, FullTurn), r, r); }
    }
  }

  lemma FullOn(states: seq<State>, events: seq<Event>, r: nat, i: nat)
    requires IsRun(states, events) && r < i < |events| && FullKeptAfter(states, events, r, i)
    ensures FullKeptAfter(states, events, r, i + 1)
  {
    var turns := Turns(states, events, FullTurn);
    assert Follows(states, events, i);
    if VisibleSince(states, events, r, i + 1) {
      RunKeeps(states, events, i);
      FullGoesOn(states[i], events[i]);
      if Served(turns, r, i) {
        ServedStays(turns, r, i);
      } else {
        if turns[i].opens { OpensServes(turns, r, i); }
        if InService(turns, r, i) { ServiceGoesOn(turns, r, i); }
      }
    }
  }

  /** Every return to a visible tab is followed by a successful whole refresh, or one is open or due. */
  lemma {:induction false} EveryReturnRefreshes(states: seq<State>, events: seq<Event>, r: nat, i: nat)
    requires IsRun(states, events) && r < i < |states| && events[r] == OnVisible
    ensures FullKeptAfter(states, events, r, i)
    decreases i
  {
    if i == r + 1 {
      FullFirst(states, events, r);
    } else {
      EveryReturnRefreshes(states, events, r, i - 1);
      FullOn(states, events, r, i - 1);
    }
  }
}
