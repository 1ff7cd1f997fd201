/** The flight hook over every run of board changes, phase ticks and effect flushes. */
module RouteFlightsRuns {
  import opened Options
  import opened PipelineLanes
  import opened Sequences
  import opened RouteFlights
  import opened RouteFlightsColumns

  ghost predicate TimersOk(h: Hook) {
    forall id :: id in h.timers ==>
      id < h.nextFlightId && forall f :: f in h.flights && f.id == id ==> f.phase == h.timers[id]
  }

  ghost predicate HookOk(h: Hook) {
    && TimersOk(h)
    && WellFormed(h.board)
    && h.snapshot.Some? == h.assignment.Some?
    && (h.snapshot.None? ==> h.flights == [])
    && (h.snapshot.Some? ==>
          && WellFormed(h.snapshot.value) && SameKey(h.snapshot.value, h.board) && h.orderedIds == h.snapshot.value
          && h.assignment.value.lanes == AssignmentOf(h.board).lanes
          && FlightsOk(h.flights, h.assignment.value.lanes, h.nextFlightId))
  }

  // ----- replanning -----

  predicate IsChange(previous: map<Id, Lane>, next: map<Id, Lane>, t: Transition) {
    && Changes(previous, next, t.workItemId)
    && t.from == previous[t.workItemId] && t.to == next[t.workItemId]
  }

  lemma {:induction false} PlanEffect(previous: map<Id, Lane>, next: map<Id, Lane>, order: seq<Id>)
    requires Distinct(order)
    ensures var plan := PlanTransitions(previous, next, order);
      && (forall t :: t in plan <==> t.workItemId in order && IsChange(previous, next, t))
      && forall i, j :: 0 <= i < j < |plan| ==> plan[i].workItemId != plan[j].workItemId
  {
    if order != [] {
      PlanEffect(previous, next, Front(order));
      assert order == Front(order) + [Last(order)];
      assert Last(order) !in Front(order);
      var plan := PlanTransitions(previous, next, Front(order));
      forall i | 0 <= i < |plan| ensures plan[i].workItemId != Last(order) {
        assert plan[i] in plan;
      }
      if Changes(previous, next, Last(order)) {
        var t := Transition(Last(order), previous[Last(order)], next[Last(order)]);
        assert forall u: Transition :: u in plan + [t] <==> u in plan || u == t;
        assert forall u: Transition :: u.workItemId == Last(order) && IsChange(previous, next, u) ==> u == t;
      }
    }
  }

  ghost predicate DistinctBy<T, U>(xs: seq<T>, key: T -> U) {
    forall i, j :: 0 <= i < j < |xs| ==> key(xs[i]) != key(xs[j])
  }

  lemma {:induction false} FilterDistinctBy<T(!new), U>(xs: seq<T>, p: T -> bool, key: T -> U)
    requires DistinctBy(xs, key)
    ensures DistinctBy(Filter(xs, p), key)
  {
    if xs != [] {
      FilterDistinctBy(Front(xs), p, key);
      FilterMembers(Front(xs), p);
      var r := Filter(Front(xs), p);
      forall i | 0 <= i < |r| ensures key(r[i]) != key(Last(xs)) {
        assert r[i] in r;
        var j :| 0 <= j < |xs| - 1 && xs[j] == r[i];
      }
    }
  }

  function WorkItemOf(): Flight -> Id { (f: Flight) => f.workItemId }

  function IdOf(): Flight -> nat { (f: Flight) => f.id }

  function MoverOf(): Transition -> Id { (t: Transition) => t.workItemId }

  lemma KeptFlightsOk(flights: seq<Flight>, before: map<Id, Lane>, lanes: map<Id, Lane>, nextFlightId: nat, p: Flight -> bool)
    requires FlightsOk(flights, before, nextFlightId)
    requires forall f :: f in flights && p(f) ==> f.workItemId in lanes && lanes[f.workItemId] == f.to
    ensures FlightsOk(Filter(flights, p), lanes, nextFlightId)
  {
    FilterMembers(flights, p);
    assert DistinctBy(flights, WorkItemOf()) && DistinctBy(flights, IdOf());
    FilterDistinctBy(flights, p, WorkItemOf());
    FilterDistinctBy(flights, p, IdOf());
  }

  /** The created flights: fresh ids, one per newly moved item, none of which is still travelling. */
  lemma CreatedFlightsOk(active: set<Id>, before: map<Id, Lane>, next: Assignment, orderedIds: Board, nextFlightId: nat)
    requires OrderOk(next)
    ensures var moved := Filter(PlanTransitions(before, next.lanes, next.order), NotTravelling(active));
      var created := CreateFlights(moved, orderedIds, nextFlightId);
      && FlightsOk(created, next.lanes, nextFlightId + |moved|)
      && forall f :: f in created ==> f.workItemId !in active && f.id >= nextFlightId
  {
    var plan := PlanTransitions(before, next.lanes, next.order);
    var moved := Filter(plan, NotTravelling(active));
    PlanEffect(before, next.lanes, next.order);
    FilterMembers(plan, NotTravelling(active));
    assert DistinctBy(plan, MoverOf());
    FilterDistinctBy(plan, NotTravelling(active), MoverOf());
    forall i | 0 <= i < |moved| ensures IsChange(before, next.lanes, moved[i]) && moved[i].workItemId !in active {
      assert moved[i] in moved;
    }
  }

  /** Replanning leaves one flight per item, each bound for where its item now is. */
  lemma ReplanOk(flights: seq<Flight>, before: map<Id, Lane>, next: Assignment, orderedIds: Board, nextFlightId: nat)
    requires FlightsOk(flights, before, nextFlightId) && OrderOk(next)
    ensures var r := Reconcile(before, next, flights);
      FlightsOk(r.flights + CreateFlights(r.newTransitions, orderedIds, nextFlightId), next.lanes,
                nextFlightId + |r.newTransitions|)
  {
    var r := Reconcile(before, next, flights);
    KeptFlightsOk(flights, before, next.lanes, nextFlightId, StillBound(next.lanes));
    CreatedFlightsOk(Travellers(r.flights), before, next, orderedIds, nextFlightId);
    BothFlightsOk(r.flights, CreateFlights(r.newTransitions, orderedIds, nextFlightId), next.lanes,
                  nextFlightId, nextFlightId + |r.newTransitions|);
  }

  lemma BothFlightsOk(kept: seq<Flight>, created: seq<Flight>, lanes: map<Id, Lane>, firstId: nat, lastId: nat)
    requires FlightsOk(kept, lanes, firstId) && FlightsOk(created, lanes, lastId) && firstId <= lastId
    requires forall f :: f in created ==> f.workItemId !in Travellers(kept) && f.id >= firstId
    ensures FlightsOk(kept + created, lanes, lastId)
  {
    var all := kept + created;
    forall i, j | 0 <= i < j < |all| ensures all[i].workItemId != all[j].workItemId && all[i].id != all[j].id {
      assert i < |kept| ==> all[i] in kept && all[i].workItemId in Travellers(kept);
      assert j >= |kept| ==> all[j] in created;
    }
  }

  lemma SameKeySameLanes(a: Board, b: Board)
    requires WellFormed(a) && WellFormed(b) && SameKey(a, b)
    ensures AssignmentOf(a).lanes == AssignmentOf(b).lanes
  {
    AssignmentIsPlacement(a);
    AssignmentIsPlacement(b);
    forall id, lane ensures PlacedAt(AssignmentOf(a).lanes, id, lane) <==> PlacedAt(AssignmentOf(b).lanes, id, lane) {
      assert id in Column(a, lane) <==> id in multiset(Column(a, lane));
      assert id in Column(b, lane) <==> id in multiset(Column(b, lane));
    }
    SamePlacement(AssignmentOf(a).lanes, AssignmentOf(b).lanes);
  }

  /** The timers and flights of the hook after a replan towards `next`. */
  lemma ReplanKeeps(h: Hook, next: Assignment)
    requires HookOk(h) && h.assignment.Some? && OrderOk(next)
    ensures var r := Reconcile(h.assignment.value.lanes, next, h.flights);
      var flights := r.flights + CreateFlights(r.newTransitions, h.orderedIds, h.nextFlightId);
      var nextFlightId := h.nextFlightId + |r.newTransitions|;
      && FlightsOk(flights, next.lanes, nextFlightId)
      && TimersOk(h.(flights := flights, nextFlightId := nextFlightId))
  {
    ReplanOk(h.flights, h.assignment.value.lanes, next, h.orderedIds, h.nextFlightId);
    ReplanTimers(h, next);
  }

  lemma LayoutKeeps(h: Hook, board: Board, reducedMotion: bool)
    requires HookOk(h) && h.snapshot.Some? && WellFormed(board)
    ensures HookOk(LayoutEffect(h.(board := board, snapshot := Some(board)), AssignmentOf(board), board, reducedMotion))
  {
    AssignmentIsPlacement(board);
    if h.assignment.value.lanes != AssignmentOf(board).lanes && !reducedMotion {
      ReplanKeeps(h, AssignmentOf(board));
    }
  }

  lemma CommitKeeps(h: Hook, board: Board, reducedMotion: bool)
    requires HookOk(h) && WellFormed(board)
    ensures HookOk(Commit(h, board, reducedMotion))
  {
    if h.snapshot.Some? {
      if SameKey(h.snapshot.value, board) {
        SameKeySameLanes(h.snapshot.value, board);
        SameKeySameLanes(h.snapshot.value, h.board);
      } else {
        LayoutKeeps(h, board, reducedMotion);
      }
    }
  }

  lemma ReplanTimers(h: Hook, next: Assignment)
    requires HookOk(h) && h.assignment.Some?
    ensures var r := Reconcile(h.assignment.value.lanes, next, h.flights);
      TimersOk(h.(flights := r.flights + CreateFlights(r.newTransitions, h.orderedIds, h.nextFlightId),
                  nextFlightId := h.nextFlightId + |r.newTransitions|))
  {
    FilterMembers(h.flights, StillBound(next.lanes));
  }

  lemma AdvanceEffect(flights: seq<Flight>, id: nat, phase: Phase)
    ensures forall lanes, n :: FlightsOk(flights, lanes, n) ==> FlightsOk(Advance(flights, id, phase), lanes, n)
    ensures forall f :: f in Advance(flights, id, phase) && f.id != id ==> f in flights
  {
    var r := Advance(flights, id, phase);
    forall f | f in r ensures exists g :: g in flights && f == (if g.id == id then g.(phase := phase) else g) {
      var i :| 0 <= i < |r| && r[i] == f;
      assert flights[i] in flights;
    }
  }

  lemma TimerKeepsFlights(h: Hook, id: nat, lanes: map<Id, Lane>)
    requires TimersOk(h) && id in h.timers && FlightsOk(h.flights, lanes, h.nextFlightId)
    ensures TimersOk(TimerFires(h, id)) && FlightsOk(TimerFires(h, id).flights, lanes, h.nextFlightId)
  {
    FilterMembers(h.flights, OtherThan(id));
    KeptFlightsOk(h.flights, lanes, lanes, h.nextFlightId, OtherThan(id));
    if n :| NextFlightPhase(h.timers[id]) == Some(n) {
      AdvanceEffect(h.flights, id, n);
    }
  }

  lemma TimerMoves(h: Hook, id: nat)
    requires id in h.timers
    ensures var t := TimerFires(h, id); t == h.(flights := t.flights, timers := t.timers)
    ensures h.flights == [] ==> TimerFires(h, id).flights == []
  {
  }

  lemma TimerKeeps(h: Hook, id: nat)
    requires HookOk(h) && id in h.timers
    ensures HookOk(TimerFires(h, id))
    ensures var t := TimerFires(h, id); t.board == h.board && t.snapshot == h.snapshot
  {
    TimerMoves(h, id);
    if h.snapshot.Some? {
      TimerKeepsFlights(h, id, h.assignment.value.lanes);
    } else {
      assert FlightsOk(h.flights, map[], h.nextFlightId);
      TimerKeepsFlights(h, id, map[]);
    }
  }

  lemma PhaseOfFlight(flights: seq<Flight>, k: nat)
    requires k < |flights| && DistinctBy(flights, IdOf())
    ensures PhaseOf(flights, flights[k].id) == flights[k].phase
  {
    var live := Filter(flights, HasId(flights[k].id));
    FilterMembers(flights, HasId(flights[k].id));
    assert flights[k] in live && live[0] in live;
    var j :| 0 <= j < |flights| && flights[j] == live[0];
    assert IdOf()(flights[j]) == IdOf()(flights[k]);
  }

  /** After the passive effect each flight has exactly one timer, for its own phase, and nothing else has one. */
  lemma FlushIsExact(h: Hook)
    requires HookOk(h)
    ensures HookOk(Flush(h))
    ensures forall f :: f in h.flights ==> f.id in Flush(h).timers && Flush(h).timers[f.id] == f.phase
    ensures forall id :: id in Flush(h).timers ==> exists f :: f in h.flights && f.id == id
  {
    assert DistinctBy(h.flights, IdOf());
    forall f | f in h.flights ensures f.id in Flush(h).timers && Flush(h).timers[f.id] == f.phase {
      var k :| 0 <= k < |h.flights| && h.flights[k] == f;
      PhaseOfFlight(h.flights, k);
    }
  }

  lemma {:induction false} RunKeepsHook(hooks: seq<Hook>, events: seq<Event>, i: nat)
    requires IsRun(hooks, events) && i < |hooks|
    ensures HookOk(hooks[i])
  {
    if i > 0 {
      var h, e := hooks[i - 1], events[i - 1];
      RunKeepsHook(hooks, events, i - 1);
      assert Enabled(h, e) && hooks[i] == Next(h, e);
      match e
      case OnCommit(board, reducedMotion) => CommitKeeps(h, board, reducedMotion);
      case OnTimer(id) => TimerKeeps(h, id);
      case OnFlush => FlushIsExact(h);
    }
  }

  // ----- what the board shows in every run -----

  function Shown(h: Hook, lane: Lane): seq<Card> {
    PresentColumn(lane, Column(h.board, lane), h.flights, AssignmentOf(h.board).lanes.Keys)
  }

  /** In every run each lane renders as many cards as it counts, and each item is shown in exactly one lane. */
  lemma BoardIsConsistent(hooks: seq<Hook>, events: seq<Event>, i: nat, lane: Lane)
    requires IsRun(hooks, events) && i < |hooks| && hooks[i].snapshot.Some?
    ensures var h := hooks[i];
      && |Shown(h, lane)| == DisplayCount(h.snapshot.value, h.flights, lane)
      && |Shown(h, lane)| == |Column(h.board, lane)| - PendingArrivals(h.flights, lane) + PendingDepartures(h.flights, lane)
      && Distinct(Ids(Shown(h, lane)))
      && forall id :: id in Ids(Shown(h, lane)) <==> ShownIn(h.flights, AssignmentOf(h.board).lanes, id, lane)
  {
    var h := hooks[i];
    RunKeepsHook(hooks, events, i);
    ColumnMatchesCount(h.board, h.flights, h.nextFlightId, lane);
    assert |multiset(Column(h.board, lane))| == |multiset(Column(h.snapshot.value, lane))|;
  }

  function OverLanes(count: map<Lane, int>): int
    requires forall lane: Lane :: lane in count
  {
    count[Queue] + count[Build] + count[Review] + count[Pr] + count[Attention] + count[Complete]
  }

  function Arrivals(flights: seq<Flight>): (r: map<Lane, int>)
    ensures forall lane :: lane in r && r[lane] == PendingArrivals(flights, lane)
  {
    map lane: Lane :: PendingArrivals(flights, lane)
  }

  function Departures(flights: seq<Flight>): (r: map<Lane, int>)
    ensures forall lane :: lane in r && r[lane] == PendingDepartures(flights, lane)
  {
    map lane: Lane :: PendingDepartures(flights, lane)
  }

  lemma BumpOne(before: map<Lane, int>, after: map<Lane, int>, at: Lane, delta: int)
    requires forall lane: Lane :: lane in before && lane in after
    requires forall lane: Lane :: after[lane] == before[lane] + if lane == at then delta else 0
    ensures OverLanes(after) == OverLanes(before) + delta
  {
    match at
    case Queue =>
    case Build =>
    case Review =>
    case Pr =>
    case Attention =>
    case Complete =>
  }

  lemma OneMoreArrival(flights: seq<Flight>)
    requires flights != []
    ensures OverLanes(Arrivals(flights)) == OverLanes(Arrivals(Front(flights))) + if PreAbsorb(Last(flights)) then 1 else 0
  {
    var f := Last(flights);
    var delta := if PreAbsorb(f) then 1 else 0;
    forall lane ensures Arrivals(flights)[lane] == Arrivals(Front(flights))[lane] + if lane == f.to then delta else 0 {
      PendingStep(flights, lane);
    }
    BumpOne(Arrivals(Front(flights)), Arrivals(flights), f.to, delta);
  }

  lemma OneMoreDeparture(flights: seq<Flight>)
    requires flights != []
    ensures OverLanes(Departures(flights)) == OverLanes(Departures(Front(flights))) + if PreAbsorb(Last(flights)) then 1 else 0
  {
    var f := Last(flights);
    var delta := if PreAbsorb(f) then 1 else 0;
    forall lane ensures Departures(flights)[lane] == Departures(Front(flights))[lane] + if lane == f.from then delta else 0 {
      PendingStep(flights, lane);
    }
    BumpOne(Departures(Front(flights)), Departures(flights), f.from, delta);
  }

  lemma {:induction false} PendingOverLanes(flights: seq<Flight>)
    ensures OverLanes(Arrivals(flights)) == OverLanes(Departures(flights))
  {
    if flights == [] {
      assert forall lane :: PendingArrivals(flights, lane) == 0 == PendingDepartures(flights, lane);
    } else {
      PendingOverLanes(Front(flights));
      OneMoreArrival(flights);
      OneMoreDeparture(flights);
    }
  }

  function Displayed(h: Hook): (r: map<Lane, int>)
    requires h.snapshot.Some?
    ensures forall lane :: lane in r && r[lane] == DisplayCount(h.snapshot.value, h.flights, lane)
  {
    map lane: Lane :: DisplayCount(h.snapshot.value, h.flights, lane)
  }

  function Held(board: Board): (r: map<Lane, int>)
    ensures forall lane :: lane in r && r[lane] == |Column(board, lane)|
  {
    map lane: Lane :: |Column(board, lane)|
  }

  /** Travelling moves cards between lanes but never changes how many the board counts. */
  lemma CountsAreConserved(hooks: seq<Hook>, events: seq<Event>, i: nat)
    requires IsRun(hooks, events) && i < |hooks| && hooks[i].snapshot.Some?
    ensures OverLanes(Displayed(hooks[i])) == OverLanes(Held(hooks[i].board))
  {
    var h := hooks[i];
    forall lane
      ensures DisplayCount(h.snapshot.value, h.flights, lane)
              == |Column(h.board, lane)| - PendingArrivals(h.flights, lane) + PendingDepartures(h.flights, lane)
    {
      BoardIsConsistent(hooks, events, i, lane);
    }
    PendingOverLanes(h.flights);
  }

  // ----- convergence -----

  function PhasesLeft(phase: Phase): nat {
    match phase
    case Eject => 4
    case Travel => 3
    case Enter => 2
    case Absorb => 1
  }

  function Measure(flights: seq<Flight>): nat {
    if flights == [] then 0 else Measure(Front(flights)) + PhasesLeft(Last(flights).phase)
  }

  ghost predicate IsLive(h: Hook, id: nat) {
    exists f :: f in h.flights && f.id == id
  }

  lemma MeasureSnoc(flights: seq<Flight>, f: Flight)
    ensures Measure(flights + [f]) == Measure(flights) + PhasesLeft(f.phase)
  {
    assert Front(flights + [f]) == flights;
  }

  lemma OthersStay(flights: seq<Flight>)
    requires flights != [] && DistinctBy(flights, IdOf())
    ensures Filter(flights, OtherThan(Last(flights).id)) == Front(flights)
  {
    var front, p := Front(flights), OtherThan(Last(flights).id);
    forall f | f in front ensures p(f) {
      var i :| 0 <= i < |front| && front[i] == f;
      assert IdOf()(flights[i]) != IdOf()(flights[|flights| - 1]);
    }
    FilterAll(front, p);
  }

  lemma {:induction false} MeasureWithout(flights: seq<Flight>, k: nat)
    requires k < |flights| && DistinctBy(flights, IdOf())
    ensures Measure(Filter(flights, OtherThan(flights[k].id))) == Measure(flights) - PhasesLeft(flights[k].phase)
  {
    var front, last := Front(flights), Last(flights);
    var p := OtherThan(flights[k].id);
    assert IdOf()(flights[k]) == flights[k].id && IdOf()(last) == last.id;
    if k == |flights| - 1 {
      OthersStay(flights);
    } else {
      MeasureWithout(front, k);
      assert IdOf()(flights[k]) != IdOf()(flights[|flights| - 1]);
      MeasureSnoc(Filter(front, p), last);
    }
  }

  lemma {:induction false} MeasureAdvanced(flights: seq<Flight>, k: nat, phase: Phase)
    requires k < |flights| && DistinctBy(flights, IdOf())
    ensures Measure(Advance(flights, flights[k].id, phase))
      == Measure(flights) - PhasesLeft(flights[k].phase) + PhasesLeft(phase)
  {
    var front, last, id := Front(flights), Last(flights), flights[k].id;
    var moved := Advance(flights, id, phase);
    assert IdOf()(flights[k]) == id && IdOf()(last) == last.id;
    if k == |flights| - 1 {
      forall i | 0 <= i < |front| ensures moved[i] == front[i] {
        assert IdOf()(flights[i]) != IdOf()(flights[k]);
      }
      assert moved == front + [last.(phase := phase)];
      MeasureSnoc(front, last.(phase := phase));
    } else {
      MeasureAdvanced(front, k, phase);
      assert IdOf()(flights[k]) != IdOf()(flights[|flights| - 1]);
      assert moved == Advance(front, id, phase) + [last];
      MeasureSnoc(Advance(front, id, phase), last);
    }
  }

  /** The flight a timer finds is one of the list, and it finds one exactly if there is one. */
  lemma FoundFlight(flights: seq<Flight>, id: nat) returns (k: nat)
    ensures var live := Filter(flights, HasId(id));
      if live == [] then forall f :: f in flights ==> f.id != id
      else k < |flights| && flights[k] == live[0] && live[0].id == id
  {
    var live := Filter(flights, HasId(id));
    FilterMembers(flights, HasId(id));
    k := 0;
    if live == [] {
      assert forall f :: f in flights && f.id == id ==> f in live;
    } else {
      assert live[0] in live;
      k :| 0 <= k < |flights| && flights[k] == live[0];
    }
  }

  /** A timer of a live flight takes exactly one phase off what is left; any other timer takes nothing. */
  lemma TickMeasure(h: Hook, id: nat)
    requires TimersOk(h) && DistinctBy(h.flights, IdOf()) && id in h.timers
    ensures Measure(TimerFires(h, id).flights) == Measure(h.flights) - if IsLive(h, id) then 1 else 0
  {
    var live := Filter(h.flights, HasId(id));
    var k := FoundFlight(h.flights, id);
    if live != [] {
      assert h.flights[k] in h.flights;
      match NextFlightPhase(live[0].phase)
      case None => MeasureWithout(h.flights, k);
      case Some(next) => MeasureAdvanced(h.flights, k, next);
    }
  }

  /** A stretch of phase ticks and effect flushes, with no board change. */
  ghost predicate IsQuiet(hooks: seq<Hook>, events: seq<Event>) {
    && |hooks| == |events| + 1
    && HookOk(hooks[0])
    && forall i :: 0 <= i < |events| ==>
         Enabled(hooks[i], events[i]) && !events[i].OnCommit? && hooks[i + 1] == Next(hooks[i], events[i])
  }

  ghost function LiveTicks(hooks: seq<Hook>, events: seq<Event>, n: nat): nat
    requires n <= |events| && n < |hooks|
  {
    if n == 0 then 0
    else LiveTicks(hooks, events, n - 1)
         + if events[n - 1].OnTimer? && IsLive(hooks[n - 1], events[n - 1].id) then 1 else 0
  }

  lemma {:induction false} MeasureBound(flights: seq<Flight>)
    ensures |flights| <= Measure(flights) <= 4 * |flights|
  {
    if flights != [] { MeasureBound(Front(flights)); }
  }

  lemma QuietKeeps(h: Hook, e: Event)
    requires HookOk(h) && Enabled(h, e) && !e.OnCommit?
    ensures HookOk(Next(h, e)) && Next(h, e).board == h.board && Next(h, e).snapshot == h.snapshot
  {
    match e
    case OnTimer(id) => TimerKeeps(h, id);
    case OnFlush => FlushIsExact(h);
  }

  lemma QuietTick(h: Hook, e: Event)
    requires HookOk(h) && Enabled(h, e) && !e.OnCommit?
    ensures Measure(Next(h, e).flights) + (if e.OnTimer? && IsLive(h, e.id) then 1 else 0) == Measure(h.flights)
  {
    match e
    case OnTimer(id) =>
      assert DistinctBy(h.flights, IdOf());
      TickMeasure(h, id);
    case OnFlush =>
  }

  lemma {:induction false} QuietMeasure(hooks: seq<Hook>, events: seq<Event>, n: nat)
    requires IsQuiet(hooks, events) && n <= |events|
    ensures HookOk(hooks[n])
    ensures hooks[n].board == hooks[0].board && hooks[n].snapshot == hooks[0].snapshot
    ensures Measure(hooks[n].flights) + LiveTicks(hooks, events, n) == Measure(hooks[0].flights)
  {
    if n > 0 {
      QuietMeasure(hooks, events, n - 1);
      assert hooks[n] == Next(hooks[n - 1], events[n - 1]);
      QuietKeeps(hooks[n - 1], events[n - 1]);
      QuietTick(hooks[n - 1], events[n - 1]);
    }
  }

  /** A flight left after a flush has a live timer. */
  lemma FlightHasLiveTimer(h: Hook)
    requires HookOk(h) && h.flights != []
    ensures exists id :: Enabled(Flush(h), OnTimer(id)) && IsLive(Flush(h), id)
  {
    FlushIsExact(h);
    assert h.flights[0] in Flush(h).flights;
    assert Enabled(Flush(h), OnTimer(h.flights[0].id)) && IsLive(Flush(h), h.flights[0].id);
  }

  lemma {:induction false} AllResident(items: seq<Id>)
    ensures Ids(Residents(items, {}, {})) == items
    ensures forall c :: c in Residents(items, {}, {}) ==> !c.departing && !c.arriving
  {
    if items != [] {
      AllResident(Front(items));
      assert items == Front(items) + [Last(items)];
    }
  }

  lemma ShownWithoutFlights(board: Board, lane: Lane, known: set<Id>)
    ensures PresentColumn(lane, Column(board, lane), [], known) == Residents(Column(board, lane), {}, {})
  {
    assert EnRouteTo([], lane) == {} && AbsorbingInto([], lane) == {};
  }

  /** Without flights the board shows exactly the true columns. */
  lemma NoFlightsNoDelay(h: Hook, lane: Lane)
    requires HookOk(h) && h.snapshot.Some? && h.flights == []
    ensures Ids(Shown(h, lane)) == Column(h.board, lane)
    ensures forall c :: c in Shown(h, lane) ==> !c.departing && !c.arriving
    ensures DisplayCount(h.snapshot.value, h.flights, lane) == |Column(h.board, lane)|
  {
    ShownWithoutFlights(h.board, lane, AssignmentOf(h.board).lanes.Keys);
    AllResident(Column(h.board, lane));
    assert multiset(Column(h.snapshot.value, lane)) == multiset(Column(h.board, lane));
    assert |multiset(Column(h.snapshot.value, lane))| == |multiset(Column(h.board, lane))|;
  }

  /**
   * Without board changes at most four live ticks per flight can happen; while a flight is left a
   * flushed hook has a live timer, and once none is left the board shows exactly the true columns.
   */
  lemma QuietBoardConverges(hooks: seq<Hook>, events: seq<Event>, n: nat, lane: Lane)
    requires IsQuiet(hooks, events) && n <= |events| && hooks[0].snapshot.Some?
    ensures LiveTicks(hooks, events, n) <= 4 * |hooks[0].flights|
    ensures hooks[n].flights == [] <==> LiveTicks(hooks, events, n) == Measure(hooks[0].flights)
    ensures hooks[n].flights != [] ==>
      exists id :: Enabled(Flush(hooks[n]), OnTimer(id)) && IsLive(Flush(hooks[n]), id)
    ensures hooks[n].flights == [] ==>
      && Ids(Shown(hooks[n], lane)) == Column(hooks[0].board, lane)
      && (forall c :: c in Shown(hooks[n], lane) ==> !c.departing && !c.arriving)
      && DisplayCount(hooks[0].snapshot.value, hooks[n].flights, lane) == |Column(hooks[0].board, lane)|
  {
    QuietMeasure(hooks, events, n);
    MeasureBound(hooks[0].flights);
    MeasureBound(hooks[n].flights);
    if hooks[n].flights != [] {
      FlightHasLiveTimer(hooks[n]);
    } else {
      NoFlightsNoDelay(hooks[n], lane);
    }
  }
}
