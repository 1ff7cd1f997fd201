/** The loops and the mutable refs of the flight hook, proved against its functions. */
module RouteFlightsObject {
  import opened Options
  import opened PipelineLanes
  import opened Sequences
  import opened RouteFlights
  import opened RouteFlightsColumns
  import opened RouteFlightsRuns

  lemma TakeNext<T>(xs: seq<T>, i: nat)
    requires i < |xs|
    ensures Front(xs[..i + 1]) == xs[..i] && Last(xs[..i + 1]) == xs[i]
  {
  }

  /** `keys` are the keys of the map in its order of iteration: they decide the order of the items, not their lanes. */
  method LaneAssignmentFromLaneItems(laneItems: Board, keys: seq<Lane>) returns (assignment: Assignment)
    ensures assignment == AssignLanes(laneItems, keys)
    ensures WellFormed(laneItems) && laneItems.Keys <= Elements(keys) ==> assignment.lanes == AssignmentOf(laneItems).lanes
  {
    assignment := Assignment([], map[]);
    for l := 0 to |keys|
      invariant assignment == AssignLanes(laneItems, keys[..l])
    {
      var lane := keys[l];
      var items := Column(laneItems, lane);
      ghost var before := assignment;
      for i := 0 to |items|
        invariant assignment == AssignColumn(before, items[..i], lane)
      {
        assignment := Assign(assignment, items[i], lane);
        TakeNext(items, i);
      }
      assert items[..|items|] == items;
      TakeNext(keys, l);
    }
    assert keys[..|keys|] == keys;
    if WellFormed(laneItems) && laneItems.Keys <= Elements(keys) {
      LanesIgnoreOrder(laneItems, keys);
    }
  }

  method PlanLaneTransitions(previous: map<Id, Lane>, next: Assignment) returns (planned: seq<Transition>)
    requires OrderOk(next)
    ensures planned == PlanTransitions(previous, next.lanes, next.order)
  {
    planned := [];
    for i := 0 to |next.order|
      invariant planned == PlanTransitions(previous, next.lanes, next.order[..i])
    {
      var id := next.order[i];
      TakeNext(next.order, i);
      var to := next.lanes[id];
      if id !in previous || previous[id] == to {
        continue;
      }
      planned := planned + [Transition(id, previous[id], to)];
    }
    assert next.order[..|next.order|] == next.order;
  }

  method ReconcileFlights(previous: map<Id, Lane>, next: Assignment, flights: seq<Flight>) returns (r: Reconciled)
    requires OrderOk(next)
    ensures r == Reconcile(previous, next, flights)
  {
    var kept: seq<Flight> := [];
    var activeWorkItems: set<Id> := {};
    for i := 0 to |flights|
      invariant kept == Filter(flights[..i], StillBound(next.lanes))
      invariant activeWorkItems == Travellers(kept)
    {
      var flight := flights[i];
      TakeNext(flights, i);
      if flight.workItemId !in next.lanes { continue; }
      if next.lanes[flight.workItemId] != flight.to { continue; }
      kept := kept + [flight];
      activeWorkItems := activeWorkItems + {flight.workItemId};
    }
    assert flights[..|flights|] == flights;
    var planned := PlanLaneTransitions(previous, next);
    r := Reconciled(kept, Filter(planned, NotTravelling(activeWorkItems)));
  }

  function Get(counts: map<Lane, nat>, lane: Lane): nat {
    if lane in counts then counts[lane] else 0
  }

  /** The two maps count the pre-absorb flights into and out of every lane. */
  ghost predicate CountsPending(arrivals: map<Lane, nat>, departures: map<Lane, nat>, flights: seq<Flight>) {
    && (forall lane :: Get(arrivals, lane) == PendingArrivals(flights, lane))
    && (forall lane :: Get(departures, lane) == PendingDepartures(flights, lane))
  }

  lemma PendingOfMore(flights: seq<Flight>, f: Flight, lane: Lane)
    ensures PendingArrivals(flights + [f], lane) == PendingArrivals(flights, lane) + (if PreAbsorb(f) && f.to == lane then 1 else 0)
    ensures PendingDepartures(flights + [f], lane) == PendingDepartures(flights, lane) + (if PreAbsorb(f) && f.from == lane then 1 else 0)
  {
    assert Front(flights + [f]) == flights && Last(flights + [f]) == f;
    PendingStep(flights + [f], lane);
  }

  lemma CountStep(arrivals: map<Lane, nat>, departures: map<Lane, nat>, flights: seq<Flight>, f: Flight)
    requires CountsPending(arrivals, departures, flights)
    ensures !PreAbsorb(f) ==> CountsPending(arrivals, departures, flights + [f])
    ensures PreAbsorb(f) ==>
      CountsPending(arrivals[f.to := Get(arrivals, f.to) + 1], departures[f.from := Get(departures, f.from) + 1], flights + [f])
  {
    forall lane { PendingOfMore(flights, f, lane); }
    if PreAbsorb(f) {
      forall lane
        ensures Get(arrivals[f.to := Get(arrivals, f.to) + 1], lane) == PendingArrivals(flights + [f], lane)
        ensures Get(departures[f.from := Get(departures, f.from) + 1], lane) == PendingDepartures(flights + [f], lane)
      {
        PendingOfMore(flights, f, lane);
      }
    }
  }

  method CountPending(flights: seq<Flight>) returns (arrivals: map<Lane, nat>, departures: map<Lane, nat>)
    ensures CountsPending(arrivals, departures, flights)
  {
    arrivals, departures := map[], map[];
    for i := 0 to |flights|
      invariant CountsPending(arrivals, departures, flights[..i])
    {
      var flight := flights[i];
      assert flights[..i + 1] == flights[..i] + [flight];
      CountStep(arrivals, departures, flights[..i], flight);
      if !PreAbsorb(flight) { continue; }
      arrivals := arrivals[flight.to := Get(arrivals, flight.to) + 1];
      departures := departures[flight.from := Get(departures, flight.from) + 1];
    }
    assert flights[..|flights|] == flights;
  }

  method DisplayLaneCounts(trueCounts: map<Lane, nat>, flights: seq<Flight>) returns (display: map<Lane, nat>)
    ensures forall lane :: lane in PIPELINE_LANES ==>
      lane in display
      && display[lane] == DisplayLaneCount(Get(trueCounts, lane), PendingArrivals(flights, lane), PendingDepartures(flights, lane))
  {
    var arrivals, departures := CountPending(flights);
    display := map[];
    for l := 0 to |PIPELINE_LANES|
      invariant forall lane :: lane in PIPELINE_LANES[..l] ==>
        lane in display
        && display[lane] == DisplayLaneCount(Get(trueCounts, lane), Get(arrivals, lane), Get(departures, lane))
    {
      var lane := PIPELINE_LANES[l];
      assert PIPELINE_LANES[..l + 1] == PIPELINE_LANES[..l] + [lane];
      display := display[lane := DisplayLaneCount(Get(trueCounts, lane), Get(arrivals, lane), Get(departures, lane))];
    }
    assert PIPELINE_LANES[..|PIPELINE_LANES|] == PIPELINE_LANES;
  }

  method PresentLaneColumnItems(lane: Lane, laneItems: seq<Id>, flights: seq<Flight>, known: set<Id>)
    returns (result: seq<Card>)
    ensures result == PresentColumn(lane, laneItems, flights, known)
  {
    var departing, enRouteToLane, absorbingIntoLane := SplitFlights(lane, flights);
    result := [];
    for i := 0 to |laneItems|
      invariant result == Residents(laneItems[..i], enRouteToLane, absorbingIntoLane)
    {
      TakeNext(laneItems, i);
      if laneItems[i] in enRouteToLane { continue; }
      result := result + [Card(laneItems[i], false, laneItems[i] in absorbingIntoLane)];
    }
    assert laneItems[..|laneItems|] == laneItems;
    result := SpliceGreys(result, StableSort(departing, BySourceIndex()), known);
  }

  /** What a column needs to know of the flights: those leaving it, and the items entering it by stage. */
  ghost predicate IsSplit(lane: Lane, flights: seq<Flight>, departing: seq<Flight>, enRoute: set<Id>, absorbing: set<Id>) {
    && departing == Filter(flights, PendingOutOf(lane))
    && enRoute == EnRouteTo(flights, lane) && absorbing == AbsorbingInto(flights, lane)
  }

  lemma MoreTravellers(lane: Lane, flights: seq<Flight>, f: Flight)
    ensures EnRouteTo(flights + [f], lane) == EnRouteTo(flights, lane) + if f.to == lane && PreAbsorb(f) then {f.workItemId} else {}
    ensures AbsorbingInto(flights + [f], lane) == AbsorbingInto(flights, lane) + if f.to == lane && !PreAbsorb(f) then {f.workItemId} else {}
  {
  }

  lemma SplitStep(lane: Lane, flights: seq<Flight>, f: Flight, departing: seq<Flight>, enRoute: set<Id>, absorbing: set<Id>)
    requires IsSplit(lane, flights, departing, enRoute, absorbing)
    ensures IsSplit(lane, flights + [f],
                    if f.from == lane && PreAbsorb(f) then departing + [f] else departing,
                    if f.to == lane && PreAbsorb(f) then enRoute + {f.workItemId} else enRoute,
                    if f.to == lane && !PreAbsorb(f) then absorbing + {f.workItemId} else absorbing)
  {
    FilterSnoc(flights, f, PendingOutOf(lane));
    MoreTravellers(lane, flights, f);
  }

  method SplitFlights(lane: Lane, flights: seq<Flight>)
    returns (departing: seq<Flight>, enRouteToLane: set<Id>, absorbingIntoLane: set<Id>)
    ensures IsSplit(lane, flights, departing, enRouteToLane, absorbingIntoLane)
  {
    departing, enRouteToLane, absorbingIntoLane := [], {}, {};
    for i := 0 to |flights|
      invariant IsSplit(lane, flights[..i], departing, enRouteToLane, absorbingIntoLane)
    {
      var flight := flights[i];
      assert flights[..i + 1] == flights[..i] + [flight];
      SplitStep(lane, flights[..i], flight, departing, enRouteToLane, absorbingIntoLane);
      if flight.from == lane && PreAbsorb(flight) {
        departing := departing + [flight];
      }
      if flight.to == lane {
        if PreAbsorb(flight) {
          enRouteToLane := enRouteToLane + {flight.workItemId};
        } else {
          absorbingIntoLane := absorbingIntoLane + {flight.workItemId};
        }
      }
    }
    assert flights[..|flights|] == flights;
  }

  method SpliceGreys(residents: seq<Card>, sortedDeparting: seq<Flight>, known: set<Id>) returns (result: seq<Card>)
    ensures result == InsertGreys(residents, sortedDeparting, known)
  {
    result := residents;
    var seen := Elements(Ids(result));
    for i := 0 to |sortedDeparting|
      invariant result == InsertGreys(residents, sortedDeparting[..i], known)
      invariant seen == Elements(Ids(result))
    {
      var grey := sortedDeparting[i];
      TakeNext(sortedDeparting, i);
      if grey.workItemId in seen { continue; }
      if grey.workItemId !in known { continue; }
      var card := Card(grey.workItemId, true, false);
      var insertAt := if grey.sourceOrderIndex <= |result| then grey.sourceOrderIndex else |result|;
      SplicedIds(result, insertAt, card);
      result := result[..insertAt] + [card] + result[insertAt..];
      seen := seen + {grey.workItemId};
    }
    assert sortedDeparting[..|sortedDeparting|] == sortedDeparting;
  }

  lemma SplicedIds(cards: seq<Card>, at: nat, card: Card)
    requires at <= |cards|
    ensures Elements(Ids(SpliceIn(cards, at, card))) == Elements(Ids(cards)) + {card.id}
  {
    var r := SpliceIn(cards, at, card);
    assert Ids(r) == Ids(cards)[..at] + [card.id] + Ids(cards)[at..];
    assert Ids(cards) == Ids(cards)[..at] + Ids(cards)[at..];
  }

  class PipelineRouteFlights {
    var board: Board
    var snapshot: Option<Board>
    var assignment: Option<Assignment>
    var orderedIds: Board
    var flights: seq<Flight>
    var timers: map<nat, Phase>
    var nextFlightId: nat

    ghost function Model(): Hook
      reads this
    {
      Hook(board, snapshot, assignment, orderedIds, flights, timers, nextFlightId)
    }

    constructor ()
      ensures Model() == Init()
    {
      board, snapshot, assignment, orderedIds := map[], None, None, map[];
      flights, timers, nextFlightId := [], map[], 0;
    }

    /** A render with its layout effect; the effect runs only when the memoised snapshot was replaced. */
    method Render(laneItems: Board, reducedMotion: bool)
      requires WellFormed(laneItems)
      modifies this
      ensures Model() == Commit(old(Model()), laneItems, reducedMotion)
    {
      board := laneItems;
      if snapshot.Some? && SameKey(snapshot.value, laneItems) { return; }
      snapshot := Some(laneItems);
      var nextAssignment := LaneAssignmentFromLaneItems(laneItems, PIPELINE_LANES);
      AssignmentIsPlacement(laneItems);
      RunLayoutEffect(nextAssignment, laneItems, reducedMotion);
    }

    method RunLayoutEffect(nextAssignment: Assignment, nextOrderedIds: Board, reducedMotion: bool)
      requires OrderOk(nextAssignment)
      modifies this
      ensures Model() == LayoutEffect(old(Model()), nextAssignment, nextOrderedIds, reducedMotion)
    {
      if assignment.None? {
        assignment := Some(nextAssignment);
        orderedIds := nextOrderedIds;
        return;
      }
      if assignment.value.lanes == nextAssignment.lanes {
        orderedIds := nextOrderedIds;
        return;
      }
      if reducedMotion {
        assignment := Some(nextAssignment);
        orderedIds := nextOrderedIds;
        flights := [];
        return;
      }
      var priorOrder := orderedIds;
      var r := ReconcileFlights(assignment.value.lanes, nextAssignment, flights);
      assignment := Some(nextAssignment);
      orderedIds := nextOrderedIds;
      if |r.newTransitions| == 0 {
        ShortFilterIsWhole(flights, StillBound(nextAssignment.lanes));
        assert CreateFlights(r.newTransitions, priorOrder, nextFlightId) == [];
        assert r.flights + [] == r.flights;
        if |r.flights| != |flights| {
          flights := r.flights;
        }
        return;
      }
      flights := r.flights + CreateFlights(r.newTransitions, priorOrder, nextFlightId);
      nextFlightId := nextFlightId + |r.newTransitions|;
    }

    /** The callback of a phase timer. */
    method PhaseTimer(id: nat)
      requires id in timers
      modifies this
      ensures Model() == TimerFires(old(Model()), id)
    {
      var scheduledPhase := timers[id];
      timers := timers - {id};
      var live := Filter(flights, HasId(id));
      if live == [] || live[0].phase != scheduledPhase { return; }
      var next := NextFlightPhase(scheduledPhase);
      if next.None? {
        flights := Filter(flights, OtherThan(id));
        return;
      }
      flights := Advance(flights, id, next.value);
    }

    /** The passive effect: arm missing timers, then drop those of flights that are gone. */
    method ArmTimers()
      requires DistinctBy(flights, IdOf())
      modifies this
      ensures Model() == Flush(old(Model()))
    {
      var armed := ArmMissing(flights, timers);
      ArmedAreFlushed(flights, timers, armed);
      timers := Restricted(armed, FlightIds(flights));
    }
  }

  function Restricted(timers: map<nat, Phase>, ids: set<nat>): map<nat, Phase> {
    map id | id in ids && id in timers :: timers[id]
  }

  lemma ArmedAreFlushed(flights: seq<Flight>, timers: map<nat, Phase>, armed: map<nat, Phase>)
    requires DistinctBy(flights, IdOf())
    requires forall id :: id in timers ==> id in armed && armed[id] == timers[id]
    requires forall k :: 0 <= k < |flights| ==>
      flights[k].id in armed && (flights[k].id !in timers ==> armed[flights[k].id] == flights[k].phase)
    ensures Restricted(armed, FlightIds(flights)) == FlushTimers(flights, timers)
  {
    forall id | id in FlightIds(flights)
      ensures id in armed && armed[id] == FlushTimers(flights, timers)[id]
    {
      var k :| 0 <= k < |flights| && flights[k].id == id;
      PhaseOfFlight(flights, k);
    }
  }

  method ArmMissing(flights: seq<Flight>, timers: map<nat, Phase>) returns (armed: map<nat, Phase>)
    requires DistinctBy(flights, IdOf())
    ensures forall id :: id in timers ==> id in armed && armed[id] == timers[id]
    ensures forall k :: 0 <= k < |flights| ==>
      flights[k].id in armed && (flights[k].id !in timers ==> armed[flights[k].id] == flights[k].phase)
  {
    armed := timers;
    for i := 0 to |flights|
      invariant forall id :: id in timers ==> id in armed && armed[id] == timers[id]
      invariant forall k :: 0 <= k < i ==>
        flights[k].id in armed && (flights[k].id !in timers ==> armed[flights[k].id] == flights[k].phase)
      invariant forall k :: i <= k < |flights| && flights[k].id in armed ==> flights[k].id in timers
    {
      if flights[i].id in armed { continue; }
      assert forall k :: 0 <= k < |flights| && k != i ==> flights[k].id != flights[i].id by {
        forall k | 0 <= k < |flights| && k != i ensures flights[k].id != flights[i].id {
          assert IdOf()(flights[k]) != IdOf()(flights[i]);
        }
      }
      armed := armed[flights[i].id := flights[i].phase];
    }
  }

  lemma {:induction false} ShortFilterIsWhole<T>(xs: seq<T>, p: T -> bool)
    ensures |Filter(xs, p)| == |xs| ==> Filter(xs, p) == xs
  {
    if xs != [] {
      ShortFilterIsWhole(Front(xs), p);
      assert xs == Front(xs) + [Last(xs)];
    }
  }
}
