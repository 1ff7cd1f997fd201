/** The life of one flight: when it starts, how it moves on, and the only ways it can end. */
module RouteFlightsLives {
  import opened Options
  import opened PipelineLanes
  import opened Sequences
  import opened RouteFlights
  import opened RouteFlightsColumns
  import opened RouteFlightsRuns
  import opened RouteFlightsOrder

  /** Some item is in a column of one board and not in that column of the other. */
  ghost predicate PlacementsDiffer(a: Board, b: Board) {
    exists id, lane :: InColumn(a, lane, id) != InColumn(b, lane, id)
  }

  predicate InColumn(board: Board, lane: Lane, id: Id) { id in Column(board, lane) }

  lemma PlacementsDifferIff(a: Board, b: Board)
    requires WellFormed(a) && WellFormed(b)
    ensures PlacementsDiffer(a, b) <==> AssignmentOf(a).lanes != AssignmentOf(b).lanes
  {
    AssignmentIsPlacement(a);
    AssignmentIsPlacement(b);
    if !PlacementsDiffer(a, b) {
      forall id, lane ensures PlacedAt(AssignmentOf(a).lanes, id, lane) <==> PlacedAt(AssignmentOf(b).lanes, id, lane) {
        assert InColumn(a, lane, id) == InColumn(b, lane, id);
      }
      SamePlacement(AssignmentOf(a).lanes, AssignmentOf(b).lanes);
    } else {
      var id, lane :| InColumn(a, lane, id) != InColumn(b, lane, id);
      assert PlacedAt(AssignmentOf(a).lanes, id, lane) != PlacedAt(AssignmentOf(b).lanes, id, lane);
    }
  }

  /** A commit with motion keeps a flight, as it is, exactly if its item is still where the flight is bound for. */
  lemma FlightStaysIff(h: Hook, board: Board, f: Flight)
    requires HookOk(h) && h.snapshot.Some? && WellFormed(board) && f in h.flights
    ensures f in Commit(h, board, false).flights <==> f.workItemId in Column(board, f.to)
  {
    var before, next := h.assignment.value.lanes, AssignmentOf(board);
    AssignmentIsPlacement(board);
    CommitReplans(h, board);
    if before != next.lanes {
      KeptOrCreated(h.flights, before, next, h.orderedIds, h.nextFlightId, f);
    }
  }

  lemma KeptOrCreated(flights: seq<Flight>, before: map<Id, Lane>, next: Assignment, orderedIds: Board, nextFlightId: nat, f: Flight)
    requires FlightsOk(flights, before, nextFlightId) && OrderOk(next) && f.id < nextFlightId
    ensures var r := Reconcile(before, next, flights);
      f in r.flights + CreateFlights(r.newTransitions, orderedIds, nextFlightId)
      <==> f in flights && f.workItemId in next.lanes && next.lanes[f.workItemId] == f.to
  {
    var r := Reconcile(before, next, flights);
    FilterMembers(flights, StillBound(next.lanes));
    CreatedFlightsOk(Travellers(r.flights), before, next, orderedIds, nextFlightId);
  }

  /** The flight of an item that has just left column `from` for column `to`. */
  ghost predicate LeavesFor(h: Hook, f: Flight, from: Lane, to: Lane, id: Id) {
    && f.workItemId == id && f.from == from && f.to == to && f.phase == Eject && h.nextFlightId <= f.id
    && f.sourceOrderIndex == SourceOrderIndex(h.orderedIds, from, id)
  }

  lemma StartsThere(h: Hook, next: Assignment, from: Lane, to: Lane, id: Id) returns (f: Flight)
    requires h.assignment.Some? && OrderOk(next)
    requires from != to && PlacedAt(h.assignment.value.lanes, id, from) && PlacedAt(next.lanes, id, to)
    ensures var before := h.assignment.value.lanes;
      f in CreateFlights(PlanTransitions(before, next.lanes, next.order), h.orderedIds, h.nextFlightId)
    ensures LeavesFor(h, f, from, to, id)
  {
    var before := h.assignment.value.lanes;
    var created := CreateFlights(PlanTransitions(before, next.lanes, next.order), h.orderedIds, h.nextFlightId);
    CreatedJustLeft(before, next, h.orderedIds, h.nextFlightId);
    assert Changes(before, next.lanes, id);
    assert TookOff(before, next.lanes, h.orderedIds, created, id);
    f :| HeldBy(created, id, f) && JustLeft(before, next.lanes, h.orderedIds, f);
    var i :| 0 <= i < |created| && created[i] == f;
  }

  lemma StartedFrom(h: Hook, next: Assignment, f: Flight)
    requires h.assignment.Some? && OrderOk(next) && h.nextFlightId <= f.id
    requires FlightsOk(h.flights, h.assignment.value.lanes, h.nextFlightId)
    requires var before := h.assignment.value.lanes;
      var r := Reconcile(before, next, h.flights);
      f in r.flights + CreateFlights(r.newTransitions, h.orderedIds, h.nextFlightId)
    ensures f.from != f.to && PlacedAt(h.assignment.value.lanes, f.workItemId, f.from) && PlacedAt(next.lanes, f.workItemId, f.to)
  {
    var before := h.assignment.value.lanes;
    NoMoverTravels(h.flights, before, next, h.nextFlightId);
    FilterMembers(h.flights, StillBound(next.lanes));
    CreatedJustLeft(before, next, h.orderedIds, h.nextFlightId);
  }

  lemma PlacedNow(board: Board, lane: Lane, id: Id)
    requires WellFormed(board)
    ensures OrderOk(AssignmentOf(board)) && (PlacedAt(AssignmentOf(board).lanes, id, lane) <==> id in Column(board, lane))
  {
    AssignmentIsPlacement(board);
  }

  lemma PlacedBefore(h: Hook, lane: Lane, id: Id)
    requires HookOk(h) && h.snapshot.Some?
    ensures PlacedAt(h.assignment.value.lanes, id, lane) <==> id in Column(h.orderedIds, lane)
  {
    PlacedNow(h.orderedIds, lane, id);
    SameKeySameLanes(h.orderedIds, h.board);
  }

  /** An item that changed column takes off in a commit with motion, from its old place towards its new column. */
  lemma MoverTakesOff(h: Hook, board: Board, from: Lane, to: Lane, id: Id) returns (f: Flight)
    requires HookOk(h) && h.snapshot.Some? && WellFormed(board)
    requires from != to && id in Column(h.orderedIds, from) && id in Column(board, to)
    ensures f in Commit(h, board, false).flights && LeavesFor(h, f, from, to, id)
  {
    var before, next := h.assignment.value.lanes, AssignmentOf(board);
    PlacedBefore(h, from, id);
    PlacedNow(board, to, id);
    CommitReplans(h, board);
    NoMoverTravels(h.flights, before, next, h.nextFlightId);
    f := StartsThere(h, next, from, to, id);
  }

  /** And nothing else does: a flight that was not there before carries an item that changed column. */
  lemma OnlyMoversTakeOff(h: Hook, board: Board, f: Flight)
    requires HookOk(h) && h.snapshot.Some? && WellFormed(board)
    requires f in Commit(h, board, false).flights && f !in h.flights
    ensures f.from != f.to && f.workItemId in Column(h.orderedIds, f.from) && f.workItemId in Column(board, f.to)
    ensures LeavesFor(h, f, f.from, f.to, f.workItemId)
  {
    var before, next := h.assignment.value.lanes, AssignmentOf(board);
    PlacedBefore(h, f.from, f.workItemId);
    PlacedNow(board, f.to, f.workItemId);
    CommitReplans(h, board);
    NewIsCreated(h, next, f);
    StartedFrom(h, next, f);
  }

  lemma NewIsCreated(h: Hook, next: Assignment, f: Flight)
    requires h.assignment.Some? && OrderOk(next) && f !in h.flights
    requires FlightsOk(h.flights, h.assignment.value.lanes, h.nextFlightId)
    requires var before := h.assignment.value.lanes;
      var r := Reconcile(before, next, h.flights);
      f in r.flights + CreateFlights(r.newTransitions, h.orderedIds, h.nextFlightId)
    ensures LeavesFor(h, f, f.from, f.to, f.workItemId)
  {
    var before := h.assignment.value.lanes;
    var created := CreateFlights(PlanTransitions(before, next.lanes, next.order), h.orderedIds, h.nextFlightId);
    NoMoverTravels(h.flights, before, next, h.nextFlightId);
    FilterMembers(h.flights, StillBound(next.lanes));
    CreatedJustLeft(before, next, h.orderedIds, h.nextFlightId);
    var i :| 0 <= i < |created| && created[i] == f;
  }

  // ----- over runs -----

  ghost predicate HasFlight(flights: seq<Flight>, id: nat) { exists f :: f in flights && f.id == id }

  lemma OtherTimer(h: Hook, id: nat, f: Flight)
    requires HookOk(h) && id in h.timers && f in h.flights && id != f.id
    ensures f in TimerFires(h, id).flights
  {
    var k :| 0 <= k < |h.flights| && h.flights[k] == f;
    FilterMembers(h.flights, OtherThan(id));
    if n :| NextFlightPhase(h.timers[id]) == Some(n) { AdvanceKeeps(h.flights, id, n, k); }
  }

  lemma OwnTimer(h: Hook, f: Flight)
    requires HookOk(h) && f.id in h.timers && f in h.flights
    ensures h.timers[f.id] == f.phase
    ensures TimerFires(h, f.id).flights ==
      if f.phase == Absorb then Filter(h.flights, OtherThan(f.id)) else Advance(h.flights, f.id, NextFlightPhase(f.phase).value)
  {
    var live := Filter(h.flights, HasId(f.id));
    FilterMembers(h.flights, HasId(f.id));
    assert f in live && live[0] in live;
    assert live[0] in h.flights && live[0].id == f.id;
  }

  /** The timer of a flight moves it on by one phase, and ends it after the last; it moves no other flight. */
  lemma TimerMovesOn(h: Hook, id: nat, f: Flight)
    requires HookOk(h) && id in h.timers && f in h.flights
    ensures var t := TimerFires(h, id);
      if id != f.id then f in t.flights
      else match f.phase
           case Eject => f.(phase := Travel) in t.flights
           case Travel => f.(phase := Enter) in t.flights
           case Enter => f.(phase := Absorb) in t.flights
           case Absorb => !HasFlight(t.flights, id)
    ensures id == f.id ==> f !in TimerFires(h, id).flights
  {
    if id != f.id {
      OtherTimer(h, id, f);
    } else {
      OwnTimer(h, f);
      if f.phase == Absorb {
        FilterMembers(h.flights, OtherThan(id));
      } else {
        var k :| 0 <= k < |h.flights| && h.flights[k] == f;
        AdvanceKeeps(h.flights, id, NextFlightPhase(f.phase).value, k);
        AdvanceMoves(h.flights, id, NextFlightPhase(f.phase).value, f);
      }
    }
  }

  lemma AdvanceKeeps(flights: seq<Flight>, id: nat, phase: Phase, k: nat)
    requires k < |flights|
    ensures (if flights[k].id == id then flights[k].(phase := phase) else flights[k]) in Advance(flights, id, phase)
  {
    assert Advance(flights, id, phase)[k] in Advance(flights, id, phase);
  }

  lemma AdvanceMoves(flights: seq<Flight>, id: nat, phase: Phase, f: Flight)
    requires f.id == id && f.phase != phase
    ensures f !in Advance(flights, id, phase)
  {
  }

  /**
   * In every run a flight is left exactly as it is by everything but its own timer and a commit of a board on which
   * its item is not, or no longer, where the flight is bound for, or of any other placement without motion.
   */
  lemma FlightLives(hooks: seq<Hook>, events: seq<Event>, i: nat, f: Flight)
    requires IsRun(hooks, events) && i < |events| && f in hooks[i].flights
    ensures f in hooks[i + 1].flights <==>
      match events[i]
      case OnFlush => true
      case OnTimer(id) => id != f.id
      case OnCommit(board, reducedMotion) =>
        f.workItemId in Column(board, f.to) && !(reducedMotion && PlacementsDiffer(hooks[i].board, board))
  {
    var h := hooks[i];
    RunKeepsHook(hooks, events, i);
    assert Enabled(h, events[i]) && hooks[i + 1] == Next(h, events[i]);
    match events[i]
    case OnFlush =>
    case OnTimer(id) => TimerMovesOn(h, id, f);
    case OnCommit(board, reducedMotion) =>
      if reducedMotion { StillCommit(h, board, f); } else { FlightStaysIff(h, board, f); }
  }

  /** Without motion any change of placement clears the air. */
  lemma StillCommit(h: Hook, board: Board, f: Flight)
    requires HookOk(h) && h.snapshot.Some? && WellFormed(board) && f in h.flights
    ensures f in Commit(h, board, true).flights <==> !PlacementsDiffer(h.board, board)
    ensures !PlacementsDiffer(h.board, board) ==> f.workItemId in Column(board, f.to)
  {
    PlacementsDifferIff(h.board, board);
    AssignmentIsPlacement(board);
    if SameKey(h.snapshot.value, board) {
      SameKeySameLanes(h.snapshot.value, h.board);
      SameKeySameLanes(h.snapshot.value, board);
    }
  }

  lemma SameFlight(flights: seq<Flight>, f: Flight, g: Flight)
    requires DistinctBy(flights, IdOf()) && f in flights && g in flights && f.id == g.id
    ensures f == g
  {
    var i :| 0 <= i < |flights| && flights[i] == f;
    var j :| 0 <= j < |flights| && flights[j] == g;
    assert IdOf()(flights[i]) == IdOf()(flights[j]);
  }

  lemma StillOrGone(h: Hook, board: Board)
    requires h.snapshot.Some? && h.assignment.Some?
    ensures Commit(h, board, true).flights in {h.flights, []}
  {
  }

  /** A commit puts no other flight under the id of one that was up. */
  lemma CommitReusesNoId(h: Hook, board: Board, reducedMotion: bool, f: Flight, g: Flight)
    requires HookOk(h) && h.snapshot.Some? && WellFormed(board) && f in h.flights
    requires g in Commit(h, board, reducedMotion).flights && g.id == f.id
    ensures g == f
  {
    if g in h.flights {
      assert DistinctBy(h.flights, IdOf());
      SameFlight(h.flights, f, g);
    } else if reducedMotion {
      StillOrGone(h, board);
    } else {
      OnlyMoversTakeOff(h, board, g);
    }
  }

  /** In every run a flight ends only by its own timer after its last phase, or by such a commit. */
  lemma FlightEndsIff(hooks: seq<Hook>, events: seq<Event>, i: nat, f: Flight)
    requires IsRun(hooks, events) && i < |events| && f in hooks[i].flights
    ensures !HasFlight(hooks[i + 1].flights, f.id) <==>
      match events[i]
      case OnFlush => false
      case OnTimer(id) => id == f.id && f.phase == Absorb
      case OnCommit(board, reducedMotion) =>
        f.workItemId !in Column(board, f.to) || (reducedMotion && PlacementsDiffer(hooks[i].board, board))
  {
    var h := hooks[i];
    RunKeepsHook(hooks, events, i);
    assert Enabled(h, events[i]) && hooks[i + 1] == Next(h, events[i]);
    FlightLives(hooks, events, i, f);
    match events[i]
    case OnFlush =>
    case OnTimer(id) => TimerMovesOn(h, id, f);
    case OnCommit(board, reducedMotion) =>
      if g :| g in hooks[i + 1].flights && g.id == f.id { CommitReusesNoId(h, board, reducedMotion, f, g); }
  }
}
