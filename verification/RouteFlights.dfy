/** Route flights: what the board shows while work items travel between lanes. */
module RouteFlights {
  import opened Options
  import opened PipelineLanes
  import opened Sequences

  type Id = string

  // ----- boards and assignments -----

  /** Work items per lane, in display order. */
  type Board = map<Lane, seq<Id>>

  function Column(board: Board, lane: Lane): seq<Id> {
    if lane in board then board[lane] else []
  }

  /** The server places every work item in one lane. */
  ghost predicate WellFormed(board: Board) {
    && (forall lane :: Distinct(Column(board, lane)))
    && (forall a, b, id :: id in Column(board, a) && id in Column(board, b) ==> a == b)
  }

  /** A map that remembers the order of first insertion. */
  datatype Assignment = Assignment(order: seq<Id>, lanes: map<Id, Lane>)

  function Assign(a: Assignment, id: Id, lane: Lane): Assignment {
    Assignment(if id in a.lanes then a.order else a.order + [id], a.lanes[id := lane])
  }

  function AssignColumn(a: Assignment, ids: seq<Id>, lane: Lane): Assignment {
    if ids == [] then a else Assign(AssignColumn(a, Front(ids), lane), Last(ids), lane)
  }

  function AssignLanes(board: Board, lanes: seq<Lane>): Assignment {
    if lanes == [] then Assignment([], map[])
    else AssignColumn(AssignLanes(board, Front(lanes)), Column(board, Last(lanes)), Last(lanes))
  }

  function AssignmentOf(board: Board): Assignment {
    AssignLanes(board, PIPELINE_LANES)
  }

  // ----- flights -----

  datatype Phase = Eject | Travel | Enter | Absorb

  function NextFlightPhase(phase: Phase): Option<Phase> {
    match phase
    case Eject => Some(Travel)
    case Travel => Some(Enter)
    case Enter => Some(Absorb)
    case Absorb => None
  }

  datatype Flight = Flight(id: nat, workItemId: Id, from: Lane, to: Lane, phase: Phase, sourceOrderIndex: nat)

  datatype Transition = Transition(workItemId: Id, from: Lane, to: Lane)

  predicate PreAbsorb(f: Flight) { f.phase != Absorb }

  predicate Changes(previous: map<Id, Lane>, next: map<Id, Lane>, id: Id) {
    id in previous && id in next && previous[id] != next[id]
  }

  /** One transition for every item that is in both assignments and changed lane. */
  function PlanTransitions(previous: map<Id, Lane>, next: map<Id, Lane>, order: seq<Id>): seq<Transition> {
    if order == [] then []
    else
      var planned := PlanTransitions(previous, next, Front(order));
      var id := Last(order);
      if Changes(previous, next, id) then planned + [Transition(id, previous[id], next[id])] else planned
  }

  function StillBound(next: map<Id, Lane>): Flight -> bool {
    (f: Flight) => f.workItemId in next && next[f.workItemId] == f.to
  }

  function Travellers(flights: seq<Flight>): set<Id> {
    set f | f in flights :: f.workItemId
  }

  function NotTravelling(active: set<Id>): Transition -> bool {
    (t: Transition) => t.workItemId !in active
  }

  datatype Reconciled = Reconciled(flights: seq<Flight>, newTransitions: seq<Transition>)

  function Reconcile(previous: map<Id, Lane>, next: Assignment, flights: seq<Flight>): Reconciled {
    var kept := Filter(flights, StillBound(next.lanes));
    Reconciled(kept, Filter(PlanTransitions(previous, next.lanes, next.order), NotTravelling(Travellers(kept))))
  }

  function IndexOf(ids: seq<Id>, id: Id): (i: nat)
    ensures i <= |ids|
    ensures id in ids ==> i < |ids| && ids[i] == id
    ensures id !in ids[..i]
  {
    if ids == [] then 0
    else if id in Front(ids) then IndexOf(Front(ids), id)
    else if Last(ids) == id then |ids| - 1 else |ids|
  }

  function SourceOrderIndex(orderedIds: Board, lane: Lane, id: Id): nat {
    var order := Column(orderedIds, lane);
    if id in order then IndexOf(order, id) else 0
  }

  function CreateFlights(transitions: seq<Transition>, orderedIds: Board, firstId: nat): (r: seq<Flight>)
    ensures |r| == |transitions|
  {
    seq(|transitions|, i requires 0 <= i < |transitions| =>
      var t := transitions[i];
      Flight(firstId + i, t.workItemId, t.from, t.to, Eject, SourceOrderIndex(orderedIds, t.from, t.workItemId)))
  }

  // ----- counts -----

  function PendingInto(lane: Lane): Flight -> bool { (f: Flight) => PreAbsorb(f) && f.to == lane }

  function PendingOutOf(lane: Lane): Flight -> bool { (f: Flight) => PreAbsorb(f) && f.from == lane }

  function PendingArrivals(flights: seq<Flight>, lane: Lane): nat { |Filter(flights, PendingInto(lane))| }

  function PendingDepartures(flights: seq<Flight>, lane: Lane): nat { |Filter(flights, PendingOutOf(lane))| }

  function DisplayLaneCount(trueCount: nat, pendingArrivals: nat, pendingDepartures: nat): nat {
    if trueCount - pendingArrivals + pendingDepartures < 0 then 0
    else trueCount - pendingArrivals + pendingDepartures
  }

  function DisplayCount(counted: Board, flights: seq<Flight>, lane: Lane): nat {
    DisplayLaneCount(|Column(counted, lane)|, PendingArrivals(flights, lane), PendingDepartures(flights, lane))
  }

  // ----- columns -----

  datatype Card = Card(id: Id, departing: bool, arriving: bool)

  function EnRouteTo(flights: seq<Flight>, lane: Lane): set<Id> {
    set f | f in flights && PreAbsorb(f) && f.to == lane :: f.workItemId
  }

  function AbsorbingInto(flights: seq<Flight>, lane: Lane): set<Id> {
    set f | f in flights && !PreAbsorb(f) && f.to == lane :: f.workItemId
  }

  function Residents(items: seq<Id>, enRoute: set<Id>, absorbing: set<Id>): seq<Card> {
    if items == [] then []
    else
      var shown := Residents(Front(items), enRoute, absorbing);
      var id := Last(items);
      if id in enRoute then shown else shown + [Card(id, false, id in absorbing)]
  }

  function BySourceIndex(): Flight -> int { (f: Flight) => f.sourceOrderIndex }

  function Ids(cards: seq<Card>): (r: seq<Id>)
    ensures |r| == |cards|
    ensures forall i :: 0 <= i < |cards| ==> r[i] == cards[i].id
  {
    seq(|cards|, i requires 0 <= i < |cards| => cards[i].id)
  }

  function SpliceIn(cards: seq<Card>, at: nat, card: Card): seq<Card> {
    var i := if at <= |cards| then at else |cards|;
    cards[..i] + [card] + cards[i..]
  }

  /** One grey card per departing item that is not shown yet and is still known, at its recorded index. */
  function InsertGreys(cards: seq<Card>, greys: seq<Flight>, known: set<Id>): seq<Card> {
    if greys == [] then cards
    else
      var shown := InsertGreys(cards, Front(greys), known);
      var f := Last(greys);
      if f.workItemId in Ids(shown) || f.workItemId !in known then shown
      else SpliceIn(shown, f.sourceOrderIndex, Card(f.workItemId, true, false))
  }

  function PresentColumn(lane: Lane, items: seq<Id>, flights: seq<Flight>, known: set<Id>): seq<Card> {
    InsertGreys(Residents(items, EnRouteTo(flights, lane), AbsorbingInto(flights, lane)),
                StableSort(Filter(flights, PendingOutOf(lane)), BySourceIndex()), known)
  }

  // ----- the hook as a transition system -----

  /**
   * `snapshot` is the memoised board: it is replaced only when the ids-and-lanes
   * fingerprint changes, so a mere reordering inside a lane leaves it alone.
   */
  datatype Hook = Hook(
    board: Board,
    snapshot: Option<Board>,
    assignment: Option<Assignment>,
    orderedIds: Board,
    flights: seq<Flight>,
    timers: map<nat, Phase>,
    nextFlightId: nat)

  predicate SameKey(a: Board, b: Board) {
    forall lane :: multiset(Column(a, lane)) == multiset(Column(b, lane))
  }

  function LayoutEffect(h: Hook, nextAssignment: Assignment, nextOrderedIds: Board, reducedMotion: bool): Hook {
    if h.assignment.None? then
      h.(assignment := Some(nextAssignment), orderedIds := nextOrderedIds)
    else if h.assignment.value.lanes == nextAssignment.lanes then
      h.(orderedIds := nextOrderedIds)
    else if reducedMotion then
      h.(assignment := Some(nextAssignment), orderedIds := nextOrderedIds, flights := [])
    else
      var r := Reconcile(h.assignment.value.lanes, nextAssignment, h.flights);
      h.(assignment := Some(nextAssignment),
         orderedIds := nextOrderedIds,
         flights := r.flights + CreateFlights(r.newTransitions, h.orderedIds, h.nextFlightId),
         nextFlightId := h.nextFlightId + |r.newTransitions|)
  }

  /** A render and its layout effect. */
  function Commit(h: Hook, board: Board, reducedMotion: bool): Hook {
    var rendered := h.(board := board);
    if h.snapshot.Some? && SameKey(h.snapshot.value, board) then rendered
    else LayoutEffect(rendered.(snapshot := Some(board)), AssignmentOf(board), board, reducedMotion)
  }

  function HasId(id: nat): Flight -> bool { (f: Flight) => f.id == id }

  function OtherThan(id: nat): Flight -> bool { (f: Flight) => f.id != id }

  function Advance(flights: seq<Flight>, id: nat, phase: Phase): (r: seq<Flight>)
    ensures |r| == |flights|
  {
    seq(|flights|, i requires 0 <= i < |flights| =>
      if flights[i].id == id then flights[i].(phase := phase) else flights[i])
  }

  /** A phase timer fires: the flight advances, or ends, unless it was cancelled or already moved on. */
  function TimerFires(h: Hook, id: nat): Hook
    requires id in h.timers
  {
    var scheduledPhase := h.timers[id];
    var fired := h.(timers := h.timers - {id});
    var live := Filter(h.flights, HasId(id));
    if live == [] || live[0].phase != scheduledPhase then fired
    else
      match NextFlightPhase(scheduledPhase)
      case None => fired.(flights := Filter(h.flights, OtherThan(id)))
      case Some(next) => fired.(flights := Advance(h.flights, id, next))
  }

  function FlightIds(flights: seq<Flight>): set<nat> {
    set f | f in flights :: f.id
  }

  function PhaseOf(flights: seq<Flight>, id: nat): Phase {
    var live := Filter(flights, HasId(id));
    if live == [] then Eject else live[0].phase
  }

  /** The passive effect: one timer per flight without one, none for flights that are gone. */
  function FlushTimers(flights: seq<Flight>, timers: map<nat, Phase>): map<nat, Phase> {
    map id | id in FlightIds(flights) :: if id in timers then timers[id] else PhaseOf(flights, id)
  }

  function Flush(h: Hook): Hook {
    h.(timers := FlushTimers(h.flights, h.timers))
  }

  datatype Event = OnCommit(board: Board, reducedMotion: bool) | OnTimer(id: nat) | OnFlush

  ghost predicate Enabled(h: Hook, e: Event) {
    match e
    case OnCommit(board, _) => WellFormed(board)
    case OnTimer(id) => id in h.timers
    case OnFlush => true
  }

  ghost function Next(h: Hook, e: Event): Hook
    requires Enabled(h, e)
  {
    match e
    case OnCommit(board, reducedMotion) => Commit(h, board, reducedMotion)
    case OnTimer(id) => TimerFires(h, id)
    case OnFlush => Flush(h)
  }

  ghost function Init(): Hook {
    Hook(map[], None, None, map[], [], map[], 0)
  }

  ghost predicate IsRun(hooks: seq<Hook>, events: seq<Event>) {
    && |hooks| == |events| + 1
    && hooks[0] == Init()
    && forall i :: 0 <= i < |events| ==> Enabled(hooks[i], events[i]) && hooks[i + 1] == Next(hooks[i], events[i])
  }
}
