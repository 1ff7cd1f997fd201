/** Greyed cards go back exactly where they were: a move never makes the board jump. */
module RouteFlightsOrder {
  import opened Options
  import opened PipelineLanes
  import opened Sequences
  import opened RouteFlights
  import opened RouteFlightsColumns
  import opened RouteFlightsRuns

  function MemberOf(ids: set<Id>): Id -> bool { (id: Id) => id in ids }

  lemma IndexOfIs(ids: seq<Id>, i: nat)
    requires Distinct(ids) && i < |ids|
    ensures IndexOf(ids, ids[i]) == i
  {
    var k := IndexOf(ids, ids[i]);
    assert ids[k] == ids[i];
  }

  lemma FilterAround(prior: seq<Id>, i: nat, p: Id -> bool)
    requires i < |prior| && forall j :: 0 <= j < i ==> p(prior[j])
    ensures Filter(prior, p) == if p(prior[i]) then prior[..i] + [prior[i]] + Filter(prior[i + 1..], p)
                                else prior[..i] + Filter(prior[i + 1..], p)
  {
    assert prior == prior[..i] + [prior[i]] + prior[i + 1..];
    FilterConcat(prior[..i] + [prior[i]], prior[i + 1..], p);
    FilterSnoc(prior[..i], prior[i], p);
    FilterAll(prior[..i], p);
  }

  /** Splicing the item with index `i` into the shown part of a list puts it in its place. */
  lemma SpliceInPlace(prior: seq<Id>, shown: set<Id>, i: nat, cards: seq<Card>, card: Card)
    requires Distinct(prior) && i < |prior| && card.id == prior[i] && prior[i] !in shown
    requires forall j :: 0 <= j < i ==> prior[j] in shown
    requires Ids(cards) == Filter(prior, MemberOf(shown))
    ensures Ids(SpliceIn(cards, i, card)) == Filter(prior, MemberOf(shown + {card.id}))
  {
    var before, after := prior[..i], prior[i + 1..];
    FilterAround(prior, i, MemberOf(shown));
    FilterAround(prior, i, MemberOf(shown + {card.id}));
    FilterAgree(after, MemberOf(shown), MemberOf(shown + {card.id}));
    SpliceIds(cards, i, card, before, Filter(after, MemberOf(shown)));
  }

  lemma SpliceIds(cards: seq<Card>, at: nat, card: Card, before: seq<Id>, tail: seq<Id>)
    requires Ids(cards) == before + tail && |before| == at
    ensures Ids(SpliceIn(cards, at, card)) == before + [card.id] + tail
  {
    var r := SpliceIn(cards, at, card);
    forall k | 0 <= k < |r| ensures Ids(r)[k] == (before + [card.id] + tail)[k] {
      assert k > at ==> r[k] == cards[k - 1] && Ids(cards)[k - 1] == tail[k - 1 - at];
      assert k < at ==> Ids(cards)[k] == before[k];
    }
  }

  ghost predicate GreysOf(prior: seq<Id>, stayed: set<Id>, greys: seq<Flight>, known: set<Id>) {
    && Distinct(WorkItems(greys)) && SortedBy(greys, BySourceIndex())
    && (forall f :: f in greys ==>
          && f.workItemId in prior && f.workItemId !in stayed && f.workItemId in known
          && f.sourceOrderIndex == IndexOf(prior, f.workItemId))
    && (forall f, j :: f in greys && 0 <= j < f.sourceOrderIndex && j < |prior| && prior[j] !in stayed ==>
          prior[j] in WorkItems(greys))
  }

  lemma GreysOfFront(prior: seq<Id>, stayed: set<Id>, greys: seq<Flight>, known: set<Id>)
    requires Distinct(prior) && greys != [] && GreysOf(prior, stayed, greys, known)
    ensures GreysOf(prior, stayed, Front(greys), known)
  {
    var front, last := Front(greys), Last(greys);
    assert WorkItems(front) == WorkItems(greys)[..|front|];
    SortedBelowLast(greys, BySourceIndex());
    forall f, j | f in front && 0 <= j < f.sourceOrderIndex && j < |prior| && prior[j] !in stayed
      ensures prior[j] in WorkItems(front)
    {
      assert f in greys && BySourceIndex()(f) <= BySourceIndex()(last);
      IndexOfIs(prior, j);
      assert prior[j] in WorkItems(greys);
      var k :| 0 <= k < |greys| && WorkItems(greys)[k] == prior[j];
      assert greys[k] in greys;
      assert k < |front| && WorkItems(front)[k] == prior[j];
    }
  }

  lemma GreyIsNext(prior: seq<Id>, stayed: set<Id>, greys: seq<Flight>, known: set<Id>)
    requires Distinct(prior) && greys != [] && GreysOf(prior, stayed, greys, known)
    ensures var f, shown := Last(greys), stayed + Elements(WorkItems(Front(greys)));
      && f.sourceOrderIndex < |prior| && prior[f.sourceOrderIndex] == f.workItemId && f.workItemId !in shown
      && shown + {f.workItemId} == stayed + Elements(WorkItems(greys))
      && forall j :: 0 <= j < f.sourceOrderIndex ==> prior[j] in shown
  {
    var f, shown := Last(greys), stayed + Elements(WorkItems(Front(greys)));
    assert f in greys;
    assert WorkItems(greys) == WorkItems(Front(greys)) + [f.workItemId];
    forall j | 0 <= j < f.sourceOrderIndex ensures prior[j] in shown {
      IndexOfIs(prior, j);
      assert prior[j] !in stayed ==> prior[j] in WorkItems(greys);
    }
  }

  lemma {:induction false} GreysRestore(prior: seq<Id>, stayed: set<Id>, cards: seq<Card>, greys: seq<Flight>, known: set<Id>)
    requires Distinct(prior) && Ids(cards) == Filter(prior, MemberOf(stayed))
    requires GreysOf(prior, stayed, greys, known)
    ensures Ids(InsertGreys(cards, greys, known)) == Filter(prior, MemberOf(stayed + Elements(WorkItems(greys))))
  {
    if greys == [] {
      FilterAgree(prior, MemberOf(stayed), MemberOf(stayed + Elements(WorkItems(greys))));
    } else {
      var f := Last(greys);
      GreysOfFront(prior, stayed, greys, known);
      GreysRestore(prior, stayed, cards, Front(greys), known);
      GreyIsNext(prior, stayed, greys, known);
      var shown := stayed + Elements(WorkItems(Front(greys)));
      FilterMembers(prior, MemberOf(shown));
      assert f in greys;
      SpliceInPlace(prior, shown, f.sourceOrderIndex, InsertGreys(cards, Front(greys), known), Card(f.workItemId, true, false));
    }
  }

  // ----- the first frame after a move -----

  /** A flight that has just left its prior position. */
  ghost predicate JustLeft(before: map<Id, Lane>, next: map<Id, Lane>, orderedIds: Board, f: Flight) {
    && Changes(before, next, f.workItemId) && f.phase == Eject
    && f.from == before[f.workItemId] && f.to == next[f.workItemId]
    && f.sourceOrderIndex == SourceOrderIndex(orderedIds, f.from, f.workItemId)
  }

  predicate Touches(lane: Lane, f: Flight) { PreAbsorb(f) && (f.from == lane || f.to == lane) }

  /** An item that left or entered the lane. */
  ghost predicate MovesAt(before: map<Id, Lane>, next: map<Id, Lane>, lane: Lane, id: Id) {
    Changes(before, next, id) && (before[id] == lane || next[id] == lane)
  }

  /** The item is on a flight that has just left. */
  ghost predicate TookOff(before: map<Id, Lane>, next: map<Id, Lane>, orderedIds: Board, flights: seq<Flight>, id: Id) {
    exists f :: HeldBy(flights, id, f) && JustLeft(before, next, orderedIds, f)
  }

  /** Of the flights that touch the lane, there is one for each item that moved there, and no other. */
  ghost predicate MoversTookOff(before: map<Id, Lane>, next: map<Id, Lane>, orderedIds: Board, flights: seq<Flight>, lane: Lane) {
    && Distinct(WorkItems(flights))
    && (forall f :: f in flights && Touches(lane, f) ==> JustLeft(before, next, orderedIds, f))
    && (forall id :: MovesAt(before, next, lane, id) ==> TookOff(before, next, orderedIds, flights, id))
  }

  /** Every item that changes lane is replanned: a flight that stays up is bound for where its item stays. */
  lemma NoMoverTravels(flights: seq<Flight>, before: map<Id, Lane>, next: Assignment, nextFlightId: nat)
    requires FlightsOk(flights, before, nextFlightId) && OrderOk(next)
    ensures Reconcile(before, next, flights).newTransitions == PlanTransitions(before, next.lanes, next.order)
  {
    var plan, kept := PlanTransitions(before, next.lanes, next.order), Filter(flights, StillBound(next.lanes));
    PlanEffect(before, next.lanes, next.order);
    FilterMembers(flights, StillBound(next.lanes));
    FilterAll(plan, NotTravelling(Travellers(kept)));
  }

  lemma CreatedJustLeft(before: map<Id, Lane>, next: Assignment, orderedIds: Board, nextFlightId: nat)
    requires OrderOk(next)
    ensures var created := CreateFlights(PlanTransitions(before, next.lanes, next.order), orderedIds, nextFlightId);
      && (forall f :: f in created ==> JustLeft(before, next.lanes, orderedIds, f))
      && forall id :: Changes(before, next.lanes, id) ==> TookOff(before, next.lanes, orderedIds, created, id)
  {
    var plan := PlanTransitions(before, next.lanes, next.order);
    var created := CreateFlights(plan, orderedIds, nextFlightId);
    PlanEffect(before, next.lanes, next.order);
    forall f | f in created ensures JustLeft(before, next.lanes, orderedIds, f) {
      var i :| 0 <= i < |created| && created[i] == f;
      assert plan[i] in plan;
    }
    forall id | Changes(before, next.lanes, id) ensures TookOff(before, next.lanes, orderedIds, created, id) {
      var t := Transition(id, before[id], next.lanes[id]);
      assert IsChange(before, next.lanes, t) && t in plan;
      var i :| 0 <= i < |plan| && plan[i] == t;
      assert created[i] in created && HeldBy(created, id, created[i]);
    }
  }

  /** Items that change lane take off from their prior positions; a lane no flight touched is touched by theirs alone. */
  lemma TakeOff(flights: seq<Flight>, before: map<Id, Lane>, next: Assignment, orderedIds: Board, nextFlightId: nat, lane: Lane)
    requires FlightsOk(flights, before, nextFlightId) && OrderOk(next)
    requires forall f :: f in flights ==> !Touches(lane, f)
    ensures var r := Reconcile(before, next, flights);
      MoversTookOff(before, next.lanes, orderedIds, r.flights + CreateFlights(r.newTransitions, orderedIds, nextFlightId), lane)
  {
    var kept := Filter(flights, StillBound(next.lanes));
    var created := CreateFlights(PlanTransitions(before, next.lanes, next.order), orderedIds, nextFlightId);
    NoMoverTravels(flights, before, next, nextFlightId);
    ReplanOk(flights, before, next, orderedIds, nextFlightId);
    FilterMembers(flights, StillBound(next.lanes));
    CreatedJustLeft(before, next, orderedIds, nextFlightId);
    forall id | MovesAt(before, next.lanes, lane, id) ensures TookOff(before, next.lanes, orderedIds, kept + created, id) {
      var f :| HeldBy(created, id, f) && JustLeft(before, next.lanes, orderedIds, f);
      assert HeldBy(kept + created, id, f);
    }
  }

  /** The items common to both columns are in the same order in both. */
  ghost predicate SameRelativeOrder(prior: seq<Id>, now: seq<Id>) {
    Filter(prior, MemberOf(Elements(now))) == Filter(now, MemberOf(Elements(prior)))
  }

  /** What leaves the lane stays on the board, and what enters it was there. */
  ghost predicate StaysOnBoard(prior: Board, board: Board, lane: Lane) {
    && (forall id :: id in Column(prior, lane) ==> id in AssignmentOf(board).lanes)
    && (forall id :: id in Column(board, lane) ==> id in AssignmentOf(prior).lanes)
  }

  /** One change of the board as one lane sees it. */
  ghost predicate LaneChange(prior: Board, board: Board, flights: seq<Flight>, lane: Lane) {
    && WellFormed(prior) && WellFormed(board) && StaysOnBoard(prior, board, lane)
    && MoversTookOff(AssignmentOf(prior).lanes, AssignmentOf(board).lanes, prior, flights, lane)
  }

  lemma GreyLeft(prior: Board, board: Board, flights: seq<Flight>, lane: Lane, f: Flight)
    requires LaneChange(prior, board, flights, lane) && f in flights && PendingOutOf(lane)(f)
    ensures f.workItemId in Column(prior, lane) && f.workItemId !in Column(board, lane)
    ensures f.workItemId in AssignmentOf(board).lanes && f.sourceOrderIndex == IndexOf(Column(prior, lane), f.workItemId)
  {
    AssignmentIsPlacement(prior);
    AssignmentIsPlacement(board);
    assert Touches(lane, f);
  }

  lemma LeaverIsGrey(prior: Board, board: Board, flights: seq<Flight>, lane: Lane, id: Id)
    requires LaneChange(prior, board, flights, lane) && id in Column(prior, lane) && id !in Column(board, lane)
    ensures id in WorkItems(Filter(flights, PendingOutOf(lane)))
  {
    AssignmentIsPlacement(prior);
    AssignmentIsPlacement(board);
    assert MovesAt(AssignmentOf(prior).lanes, AssignmentOf(board).lanes, lane, id);
    DepartingMembers(flights, lane, id);
  }

  lemma DepartingAreGreys(prior: Board, board: Board, flights: seq<Flight>, lane: Lane)
    requires LaneChange(prior, board, flights, lane)
    ensures var greys := StableSort(Filter(flights, PendingOutOf(lane)), BySourceIndex());
      && GreysOf(Column(prior, lane), Elements(Column(board, lane)), greys, AssignmentOf(board).lanes.Keys)
      && forall id :: id in Column(prior, lane) && id !in Column(board, lane) ==> id in WorkItems(greys)
  {
    var departing := Filter(flights, PendingOutOf(lane));
    FilterMembers(flights, PendingOutOf(lane));
    FilterKeepsWorkItemsDistinct(flights, PendingOutOf(lane));
    SortKeepsWorkItemsDistinct(departing);
    SortIsSorted(departing, BySourceIndex());
    forall f | f in departing { GreyLeft(prior, board, flights, lane, f); }
    forall id | id in Column(prior, lane) && id !in Column(board, lane) { LeaverIsGrey(prior, board, flights, lane, id); }
  }

  lemma ArrivalIsHeld(prior: Board, board: Board, flights: seq<Flight>, lane: Lane, id: Id)
    requires LaneChange(prior, board, flights, lane) && id in Column(board, lane)
    ensures id in EnRouteTo(flights, lane) <==> id !in Column(prior, lane)
  {
    AssignmentIsPlacement(prior);
    AssignmentIsPlacement(board);
    EnRouteIsHeld(flights, lane, id);
    if f :| HeldBy(flights, id, f) && f.to == lane {
      assert Touches(lane, f);
    }
    if id !in Column(prior, lane) {
      assert MovesAt(AssignmentOf(prior).lanes, AssignmentOf(board).lanes, lane, id);
    }
  }

  /** Leavers greyed at their old positions and arrivals held back give the prior column, card for card. */
  lemma FrozenColumn(prior: Board, board: Board, flights: seq<Flight>, lane: Lane)
    requires LaneChange(prior, board, flights, lane)
    requires SameRelativeOrder(Column(prior, lane), Column(board, lane))
    ensures Ids(PresentColumn(lane, Column(board, lane), flights, AssignmentOf(board).lanes.Keys)) == Column(prior, lane)
  {
    var known := AssignmentOf(board).lanes.Keys;
    var column, stayed := Column(prior, lane), Elements(Column(board, lane));
    var greys := StableSort(Filter(flights, PendingOutOf(lane)), BySourceIndex());
    var enRoute, absorbing := EnRouteTo(flights, lane), AbsorbingInto(flights, lane);
    DepartingAreGreys(prior, board, flights, lane);
    forall id | id in Column(board, lane) { ArrivalIsHeld(prior, board, flights, lane, id); }
    FilterAgree(Column(board, lane), NotIn(enRoute), MemberOf(Elements(column)));
    ResidentsEffect(Column(board, lane), enRoute, absorbing);
    GreysRestore(column, stayed, Residents(Column(board, lane), enRoute, absorbing), greys, known);
    FilterAll(column, MemberOf(stayed + Elements(WorkItems(greys))));
  }

  /**
   * Freeze frame. Whatever else is in flight or appears and vanishes elsewhere: if no flight touches a lane,
   * what leaves it stays on the board, what enters it was there, and what stays in it keeps its relative order,
   * then the first frame after the change shows that lane exactly as it was.
   */
  lemma FirstFrameIsUnmoved(h: Hook, board: Board, lane: Lane)
    requires HookOk(h) && h.snapshot.Some? && WellFormed(board)
    requires forall f :: f in h.flights ==> !Touches(lane, f)
    requires StaysOnBoard(h.orderedIds, board, lane)
    requires SameRelativeOrder(Column(h.orderedIds, lane), Column(board, lane))
    ensures Ids(Shown(Commit(h, board, false), lane)) == Column(h.orderedIds, lane)
  {
    CommitTakesOff(h, board, lane);
    CommitShows(h, board, lane);
    SameKeySameLanes(h.orderedIds, h.board);
    FrozenColumn(h.orderedIds, board, Commit(h, board, false).flights, lane);
  }

  lemma CommitShows(h: Hook, board: Board, lane: Lane)
    ensures var t := Commit(h, board, false);
      Shown(t, lane) == PresentColumn(lane, Column(board, lane), t.flights, AssignmentOf(board).lanes.Keys)
  {
    assert Commit(h, board, false).board == board;
  }

  /** A commit replans the flights if an item changed lane, and leaves them alone otherwise. */
  lemma CommitReplans(h: Hook, board: Board)
    requires HookOk(h) && h.snapshot.Some? && WellFormed(board)
    ensures var before, next := h.assignment.value.lanes, AssignmentOf(board);
      var r := Reconcile(before, next, h.flights);
      Commit(h, board, false).flights == if before == next.lanes then h.flights
                                         else r.flights + CreateFlights(r.newTransitions, h.orderedIds, h.nextFlightId)
  {
    if SameKey(h.snapshot.value, board) {
      SameKeySameLanes(h.snapshot.value, h.board);
      SameKeySameLanes(h.snapshot.value, board);
    }
  }

  lemma CommitTakesOff(h: Hook, board: Board, lane: Lane)
    requires HookOk(h) && h.snapshot.Some? && WellFormed(board)
    requires forall f :: f in h.flights ==> !Touches(lane, f)
    ensures MoversTookOff(h.assignment.value.lanes, AssignmentOf(board).lanes, h.orderedIds, Commit(h, board, false).flights, lane)
  {
    var before, next := h.assignment.value.lanes, AssignmentOf(board);
    CommitReplans(h, board);
    if before != next.lanes {
      AssignmentIsPlacement(board);
      TakeOff(h.flights, before, next, h.orderedIds, h.nextFlightId, lane);
    } else {
      assert forall id :: !MovesAt(before, next.lanes, lane, id);
    }
  }
}
