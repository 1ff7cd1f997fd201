/** Rendered columns, display counts and greyed cards agree. */
module RouteFlightsColumns {
  import opened Options
  import opened PipelineLanes
  import opened Sequences
  import opened RouteFlights

  /** One flight per work item and per id; each ends where its item already is, and started elsewhere. */
  ghost predicate FlightsOk(flights: seq<Flight>, lanes: map<Id, Lane>, nextFlightId: nat) {
    && (forall i, j :: 0 <= i < j < |flights| ==> flights[i].workItemId != flights[j].workItemId)
    && (forall i, j :: 0 <= i < j < |flights| ==> flights[i].id != flights[j].id)
    && (forall f :: f in flights ==>
          f.workItemId in lanes && lanes[f.workItemId] == f.to && f.from != f.to && f.id < nextFlightId)
  }

  // ----- assignments of boards -----

  lemma {:induction false} AssignColumnEffect(a: Assignment, ids: seq<Id>, lane: Lane)
    ensures var r := AssignColumn(a, ids, lane);
      && (forall id :: id in r.lanes <==> id in a.lanes || id in ids)
      && (forall id :: id in r.lanes ==> r.lanes[id] == if id in ids then lane else a.lanes[id])
    ensures OrderOk(a) ==> OrderOk(AssignColumn(a, ids, lane))
  {
    if ids != [] {
      AssignColumnEffect(a, Front(ids), lane);
      assert ids == Front(ids) + [Last(ids)];
    }
  }

  ghost predicate OrderOk(a: Assignment) {
    Distinct(a.order) && forall id :: id in a.order <==> id in a.lanes
  }

  lemma {:induction false} AssignLanesEffect(board: Board, lanes: seq<Lane>)
    requires WellFormed(board)
    ensures var a := AssignLanes(board, lanes);
      && OrderOk(a)
      && (forall id :: id in a.lanes <==> exists lane :: lane in lanes && id in Column(board, lane))
      && (forall lane, id :: lane in lanes && id in Column(board, lane) ==> a.lanes[id] == lane)
  {
    if lanes != [] {
      AssignLanesEffect(board, Front(lanes));
      AssignColumnEffect(AssignLanes(board, Front(lanes)), Column(board, Last(lanes)), Last(lanes));
      assert lanes == Front(lanes) + [Last(lanes)];
    }
  }

  /** The assignment of a well-formed board says exactly which column holds each item. */
  lemma AssignmentIsPlacement(board: Board)
    requires WellFormed(board)
    ensures OrderOk(AssignmentOf(board))
    ensures forall lane, id :: id in Column(board, lane) <==>
      id in AssignmentOf(board).lanes && AssignmentOf(board).lanes[id] == lane
  {
    AssignLanesEffect(board, PIPELINE_LANES);
    assert forall lane: Lane :: lane in PIPELINE_LANES by {
      forall lane: Lane ensures lane in PIPELINE_LANES {
        match lane
        case Queue => assert PIPELINE_LANES[0] == lane;
        case Build => assert PIPELINE_LANES[1] == lane;
        case Review => assert PIPELINE_LANES[2] == lane;
        case Pr => assert PIPELINE_LANES[3] == lane;
        case Attention => assert PIPELINE_LANES[4] == lane;
        case Complete => assert PIPELINE_LANES[5] == lane;
      }
    }
  }

  predicate PlacedAt(lanes: map<Id, Lane>, id: Id, lane: Lane) { id in lanes && lanes[id] == lane }

  lemma SamePlacement(a: map<Id, Lane>, b: map<Id, Lane>)
    requires forall id, lane :: PlacedAt(a, id, lane) <==> PlacedAt(b, id, lane)
    ensures a == b
  {
    forall id | id in a ensures id in b && a[id] == b[id] {
      assert PlacedAt(a, id, a[id]);
    }
    forall id | id in b ensures id in a {
      assert PlacedAt(b, id, b[id]);
    }
  }

  lemma PlacedByColumn(board: Board, keys: seq<Lane>, id: Id, lane: Lane)
    requires WellFormed(board) && board.Keys <= Elements(keys)
    ensures PlacedAt(AssignLanes(board, keys).lanes, id, lane) <==> id in Column(board, lane)
  {
    AssignLanesEffect(board, keys);
  }

  /** The order in which the columns are read is no part of the placement. */
  lemma LanesIgnoreOrder(board: Board, keys: seq<Lane>)
    requires WellFormed(board) && board.Keys <= Elements(keys)
    ensures AssignLanes(board, keys).lanes == AssignmentOf(board).lanes
  {
    AssignmentIsPlacement(board);
    forall id, lane { PlacedByColumn(board, keys, id, lane); }
    SamePlacement(AssignLanes(board, keys).lanes, AssignmentOf(board).lanes);
  }

  // ----- residents -----

  lemma {:induction false} ResidentsEffect(items: seq<Id>, enRoute: set<Id>, absorbing: set<Id>)
    ensures var r := Residents(items, enRoute, absorbing);
      && Ids(r) == Filter(items, NotIn(enRoute))
      && forall i :: 0 <= i < |r| ==> r[i] == Card(r[i].id, false, r[i].id in absorbing)
  {
    if items != [] {
      ResidentsEffect(Front(items), enRoute, absorbing);
      var shown := Residents(Front(items), enRoute, absorbing);
      var card := Card(Last(items), false, Last(items) in absorbing);
      assert Ids(shown + [card]) == Ids(shown) + [card.id];
    }
  }

  function NotIn(ids: set<Id>): Id -> bool { (id: Id) => id !in ids }

  /** Dropping a known set of members from a list without repetitions drops exactly that many. */
  lemma FilterSize(items: seq<Id>, gone: set<Id>)
    requires Distinct(items) && gone <= Elements(items)
    ensures |Filter(items, NotIn(gone))| == |items| - |gone|
  {
    var kept := Filter(items, NotIn(gone));
    FilterMembers(items, NotIn(gone));
    FilterDistinct(items, NotIn(gone));
    DistinctSize(items);
    DistinctSize(kept);
    assert Elements(kept) == Elements(items) - gone;
  }

  // ----- travellers -----

  function WorkItems(flights: seq<Flight>): (r: seq<Id>)
    ensures |r| == |flights|
    ensures forall i :: 0 <= i < |flights| ==> r[i] == flights[i].workItemId
  {
    seq(|flights|, i requires 0 <= i < |flights| => flights[i].workItemId)
  }

  lemma {:induction false} FilterKeepsWorkItemsDistinct(flights: seq<Flight>, p: Flight -> bool)
    requires Distinct(WorkItems(flights))
    ensures Distinct(WorkItems(Filter(flights, p)))
  {
    if flights != [] {
      assert WorkItems(flights)[..|flights| - 1] == WorkItems(Front(flights));
      FilterKeepsWorkItemsDistinct(Front(flights), p);
      FilterMembers(Front(flights), p);
      forall f | f in Filter(Front(flights), p) ensures f.workItemId != Last(flights).workItemId {
        var i :| 0 <= i < |Front(flights)| && Front(flights)[i] == f;
        assert WorkItems(flights)[i] != WorkItems(flights)[|flights| - 1];
      }
      if p(Last(flights)) {
        var r := Filter(Front(flights), p);
        forall i | 0 <= i < |r| ensures r[i].workItemId != Last(flights).workItemId {
          assert r[i] in r;
        }
      }
    }
  }

  lemma EnRouteSize(flights: seq<Flight>, lane: Lane)
    requires Distinct(WorkItems(flights))
    ensures |EnRouteTo(flights, lane)| == PendingArrivals(flights, lane)
  {
    var pending := Filter(flights, PendingInto(lane));
    FilterMembers(flights, PendingInto(lane));
    FilterKeepsWorkItemsDistinct(flights, PendingInto(lane));
    DistinctSize(WorkItems(pending));
    forall id ensures id in EnRouteTo(flights, lane) <==> id in Elements(WorkItems(pending)) {
      if id in EnRouteTo(flights, lane) {
        var f :| f in flights && PreAbsorb(f) && f.to == lane && f.workItemId == id;
        assert f in pending;
        var i :| 0 <= i < |pending| && pending[i] == f;
        assert WorkItems(pending)[i] == id;
      }
      if id in Elements(WorkItems(pending)) {
        var i :| 0 <= i < |pending| && WorkItems(pending)[i] == id;
        assert pending[i] in pending;
      }
    }
    assert EnRouteTo(flights, lane) == Elements(WorkItems(pending));
  }

  // ----- greyed cards -----

  lemma {:induction false} InsertGreysEffect(cards: seq<Card>, greys: seq<Flight>, known: set<Id>)
    requires Distinct(WorkItems(greys)) && Distinct(Ids(cards))
    requires forall f :: f in greys ==> f.workItemId in known && f.workItemId !in Ids(cards)
    ensures var r := InsertGreys(cards, greys, known);
      && |r| == |cards| + |greys|
      && Distinct(Ids(r))
      && multiset(r) == multiset(cards) + multiset(GreyCards(greys))
      && forall id :: id in Ids(r) <==> id in Ids(cards) || id in WorkItems(greys)
  {
    if greys != [] {
      var f := Last(greys);
      assert WorkItems(greys)[..|greys| - 1] == WorkItems(Front(greys));
      assert WorkItems(greys) == WorkItems(Front(greys)) + [f.workItemId];
      InsertGreysEffect(cards, Front(greys), known);
      assert f in greys;
      assert GreyCards(greys) == GreyCards(Front(greys)) + [Card(f.workItemId, true, false)];
      SpliceInEffect(InsertGreys(cards, Front(greys), known), f.sourceOrderIndex, Card(f.workItemId, true, false));
    }
  }

  function GreyCards(greys: seq<Flight>): (r: seq<Card>)
    ensures |r| == |greys|
  {
    seq(|greys|, i requires 0 <= i < |greys| => Card(greys[i].workItemId, true, false))
  }

  lemma DistinctInsert<T>(a: seq<T>, b: seq<T>, x: T)
    requires Distinct(a + b) && x !in a && x !in b
    ensures Distinct(a + [x] + b)
  {
    var r := a + [x] + b;
    forall i, j | 0 <= i < j < |r| ensures r[i] != r[j] {
      var c, d := if i < |a| then i else i - 1, if j < |a| then j else j - 1;
      assert i != |a| ==> r[i] == (a + b)[c];
      assert j != |a| ==> r[j] == (a + b)[d];
    }
  }

  lemma InsertedAt<T>(xs: seq<T>, i: nat, x: T)
    requires i <= |xs|
    ensures multiset(xs[..i] + [x] + xs[i..]) == multiset(xs) + multiset{x}
    ensures forall y :: y in xs[..i] + [x] + xs[i..] <==> y in xs || y == x
    ensures Distinct(xs) && x !in xs ==> Distinct(xs[..i] + [x] + xs[i..])
  {
    assert xs == xs[..i] + xs[i..];
    if Distinct(xs) && x !in xs { DistinctInsert(xs[..i], xs[i..], x); }
  }

  lemma SpliceInEffect(cards: seq<Card>, at: nat, card: Card)
    requires Distinct(Ids(cards)) && card.id !in Ids(cards)
    ensures var r := SpliceIn(cards, at, card);
      && |r| == |cards| + 1
      && Distinct(Ids(r))
      && multiset(r) == multiset(cards) + multiset{card}
      && forall id :: id in Ids(r) <==> id in Ids(cards) || id == card.id
  {
    var i := if at <= |cards| then at else |cards|;
    InsertedAt(cards, i, card);
    InsertedAt(Ids(cards), i, card.id);
    assert Ids(SpliceIn(cards, at, card)) == Ids(cards)[..i] + [card.id] + Ids(cards)[i..];
  }

  lemma {:induction false} DistinctMultiplicity<T>(xs: seq<T>)
    ensures Distinct(xs) <==> forall x :: multiset(xs)[x] <= 1
  {
    if xs != [] {
      var front, last := Front(xs), Last(xs);
      DistinctMultiplicity(front);
      assert xs == front + [last];
      if last in front {
        var i :| 0 <= i < |front| && front[i] == last;
        assert xs[i] == xs[|xs| - 1];
        assert multiset(xs)[last] >= 2;
      } else {
        assert multiset(xs)[last] == 1;
        assert forall x :: x != last ==> multiset(xs)[x] == multiset(front)[x];
      }
      if !Distinct(front) {
        var x :| multiset(front)[x] > 1;
        assert multiset(xs)[x] > 1;
      }
    }
  }

  lemma SortKeepsWorkItemsDistinct(flights: seq<Flight>)
    requires Distinct(WorkItems(flights))
    ensures var sorted := StableSort(flights, BySourceIndex());
      && |sorted| == |flights|
      && Distinct(WorkItems(sorted))
      && (forall f :: f in sorted <==> f in flights)
      && (forall id :: id in WorkItems(sorted) <==> id in WorkItems(flights))
  {
    var sorted := StableSort(flights, BySourceIndex());
    SortIsSorted(flights, BySourceIndex());
    assert |multiset(sorted)| == |multiset(flights)|;
    assert forall f :: f in sorted <==> f in multiset(sorted);
    assert forall f :: f in flights <==> f in multiset(flights);
    assert Distinct(flights) by {
      forall i, j | 0 <= i < j < |flights| ensures flights[i] != flights[j] {
        assert WorkItems(flights)[i] != WorkItems(flights)[j];
      }
    }
    DistinctMultiplicity(flights);
    DistinctMultiplicity(sorted);
    forall i, j | 0 <= i < j < |sorted| ensures WorkItems(sorted)[i] != WorkItems(sorted)[j] {
      assert sorted[i] in flights && sorted[j] in flights && sorted[i] != sorted[j];
      SameWorkItem(flights, sorted[i], sorted[j]);
    }
    SameMembers(sorted, flights);
    SameMembers(flights, sorted);
  }

  lemma SameWorkItem(flights: seq<Flight>, f: Flight, g: Flight)
    requires Distinct(WorkItems(flights)) && f in flights && g in flights && f != g
    ensures f.workItemId != g.workItemId
  {
    var i :| 0 <= i < |flights| && flights[i] == f;
    var j :| 0 <= j < |flights| && flights[j] == g;
    assert WorkItems(flights)[i] != WorkItems(flights)[j];
  }

  lemma SameMembers(a: seq<Flight>, b: seq<Flight>)
    requires forall f :: f in a ==> f in b
    ensures forall id :: id in WorkItems(a) ==> id in WorkItems(b)
  {
    forall id | id in WorkItems(a) ensures id in WorkItems(b) {
      var i :| 0 <= i < |a| && WorkItems(a)[i] == id;
      var f := a[i];
      assert f in b;
      var j :| 0 <= j < |b| && b[j] == f;
      assert WorkItems(b)[j] == id;
    }
  }

  // ----- the column of one lane -----

  /** The flight, if any, that still holds an item back. */
  ghost predicate HeldBy(flights: seq<Flight>, id: Id, f: Flight) {
    f in flights && PreAbsorb(f) && f.workItemId == id
  }

  /** The one lane in which an item is shown. */
  ghost predicate ShownIn(flights: seq<Flight>, lanes: map<Id, Lane>, id: Id, lane: Lane) {
    && id in lanes
    && (forall f :: HeldBy(flights, id, f) ==> lane == f.from)
    && ((forall f :: !HeldBy(flights, id, f)) ==> lane == lanes[id])
  }

  lemma DepartingMembers(flights: seq<Flight>, lane: Lane, id: Id)
    ensures id in WorkItems(Filter(flights, PendingOutOf(lane))) <==> exists f :: HeldBy(flights, id, f) && f.from == lane
  {
    var r := Filter(flights, PendingOutOf(lane));
    FilterMembers(flights, PendingOutOf(lane));
    if id in WorkItems(r) {
      var i :| 0 <= i < |r| && WorkItems(r)[i] == id;
      assert r[i] in r;
      assert HeldBy(flights, id, r[i]);
    }
    if f :| HeldBy(flights, id, f) && f.from == lane {
      assert f in r;
      var i :| 0 <= i < |r| && r[i] == f;
      assert WorkItems(r)[i] == id;
    }
  }

  lemma EnRouteIsHeld(flights: seq<Flight>, lane: Lane, id: Id)
    ensures id in EnRouteTo(flights, lane) <==> exists f :: HeldBy(flights, id, f) && f.to == lane
  {
    if id in EnRouteTo(flights, lane) {
      var f :| f in flights && PreAbsorb(f) && f.to == lane && f.workItemId == id;
      assert HeldBy(flights, id, f);
    }
  }

  lemma OneHolder(flights: seq<Flight>, id: Id, f: Flight, g: Flight)
    requires Distinct(WorkItems(flights)) && HeldBy(flights, id, f) && HeldBy(flights, id, g)
    ensures f == g
  {
    if f != g { SameWorkItem(flights, f, g); }
  }

  lemma ColumnParts(board: Board, flights: seq<Flight>, nextFlightId: nat, lane: Lane)
    requires WellFormed(board) && FlightsOk(flights, AssignmentOf(board).lanes, nextFlightId)
    ensures var lanes := AssignmentOf(board).lanes;
      var items := Column(board, lane);
      var cards := PresentColumn(lane, items, flights, lanes.Keys);
      var departing := Filter(flights, PendingOutOf(lane));
      && PendingArrivals(flights, lane) <= |items|
      && |cards| == |items| - PendingArrivals(flights, lane) + |departing|
      && Distinct(Ids(cards))
      && forall id :: id in Ids(cards) <==> (id in items && id !in EnRouteTo(flights, lane)) || id in WorkItems(departing)
  {
    AssignmentIsPlacement(board);
    var lanes := AssignmentOf(board).lanes;
    var items, enRoute := Column(board, lane), EnRouteTo(flights, lane);
    assert Distinct(WorkItems(flights));
    EnRouteSize(flights, lane);
    FilterSize(items, enRoute);
    FilterDistinct(items, NotIn(enRoute));
    FilterMembers(items, NotIn(enRoute));
    ResidentsEffect(items, enRoute, AbsorbingInto(flights, lane));

    var departing := Filter(flights, PendingOutOf(lane));
    FilterKeepsWorkItemsDistinct(flights, PendingOutOf(lane));
    FilterMembers(flights, PendingOutOf(lane));
    SortKeepsWorkItemsDistinct(departing);
    InsertGreysEffect(Residents(items, enRoute, AbsorbingInto(flights, lane)),
                      StableSort(departing, BySourceIndex()), lanes.Keys);
  }

  /**
   * The rendered column of a lane has exactly as many cards as its furnace counts; the clamp at
   * zero is never needed; no item appears twice, and each appears in one lane only.
   */
  lemma ColumnMatchesCount(board: Board, flights: seq<Flight>, nextFlightId: nat, lane: Lane)
    requires WellFormed(board) && FlightsOk(flights, AssignmentOf(board).lanes, nextFlightId)
    ensures var lanes := AssignmentOf(board).lanes;
      var cards := PresentColumn(lane, Column(board, lane), flights, lanes.Keys);
      && |cards| == DisplayCount(board, flights, lane)
      && |cards| == |Column(board, lane)| - PendingArrivals(flights, lane) + PendingDepartures(flights, lane)
      && PendingArrivals(flights, lane) <= |Column(board, lane)|
      && Distinct(Ids(cards))
      && forall id :: id in Ids(cards) <==> ShownIn(flights, lanes, id, lane)
  {
    var lanes := AssignmentOf(board).lanes;
    var cards := PresentColumn(lane, Column(board, lane), flights, lanes.Keys);
    ColumnParts(board, flights, nextFlightId, lane);
    forall id ensures id in Ids(cards) <==> ShownIn(flights, lanes, id, lane) {
      PlacedOnce(board, flights, nextFlightId, lane, id);
    }
  }

  lemma PlacedOnce(board: Board, flights: seq<Flight>, nextFlightId: nat, lane: Lane, id: Id)
    requires WellFormed(board) && FlightsOk(flights, AssignmentOf(board).lanes, nextFlightId)
    ensures (id in Column(board, lane) && id !in EnRouteTo(flights, lane))
              || id in WorkItems(Filter(flights, PendingOutOf(lane)))
            <==> ShownIn(flights, AssignmentOf(board).lanes, id, lane)
  {
    AssignmentIsPlacement(board);
    DepartingMembers(flights, lane, id);
    EnRouteIsHeld(flights, lane, id);
    assert Distinct(WorkItems(flights));
    if f :| HeldBy(flights, id, f) {
      forall g | HeldBy(flights, id, g) ensures g == f { OneHolder(flights, id, f, g); }
    }
  }

  lemma PendingStep(flights: seq<Flight>, lane: Lane)
    requires flights != []
    ensures var f := Last(flights);
      && PendingArrivals(flights, lane) == PendingArrivals(Front(flights), lane) + (if PreAbsorb(f) && f.to == lane then 1 else 0)
      && PendingDepartures(flights, lane) == PendingDepartures(Front(flights), lane) + (if PreAbsorb(f) && f.from == lane then 1 else 0)
  {
  }

  lemma ResidentIsFree(board: Board, flights: seq<Flight>, nextFlightId: nat, lane: Lane, card: Card)
    requires WellFormed(board) && FlightsOk(flights, AssignmentOf(board).lanes, nextFlightId)
    requires card in Residents(Column(board, lane), EnRouteTo(flights, lane), AbsorbingInto(flights, lane))
    ensures !card.departing && (card.arriving <==> card.id in AbsorbingInto(flights, lane))
    ensures !exists f :: HeldBy(flights, card.id, f)
  {
    var items, enRoute := Column(board, lane), EnRouteTo(flights, lane);
    AssignmentIsPlacement(board);
    ResidentsEffect(items, enRoute, AbsorbingInto(flights, lane));
    FilterMembers(items, NotIn(enRoute));
    EnRouteIsHeld(flights, lane, card.id);
    var residents := Residents(items, enRoute, AbsorbingInto(flights, lane));
    var i :| 0 <= i < |residents| && residents[i] == card;
    assert Ids(residents)[i] == card.id;
  }

  lemma GreyIsHeld(flights: seq<Flight>, lane: Lane, card: Card)
    requires Distinct(WorkItems(flights))
    requires card in GreyCards(StableSort(Filter(flights, PendingOutOf(lane)), BySourceIndex()))
    ensures card.departing && !card.arriving && exists f :: HeldBy(flights, card.id, f)
  {
    var departing := Filter(flights, PendingOutOf(lane));
    var sorted := StableSort(departing, BySourceIndex());
    FilterKeepsWorkItemsDistinct(flights, PendingOutOf(lane));
    SortKeepsWorkItemsDistinct(departing);
    DepartingMembers(flights, lane, card.id);
    var i :| 0 <= i < |sorted| && GreyCards(sorted)[i] == card;
    assert WorkItems(sorted)[i] == card.id;
  }

  /** A card is grey exactly while its item is held back, and fades in exactly while its flight absorbs. */
  lemma CardsTellTheTruth(board: Board, flights: seq<Flight>, nextFlightId: nat, lane: Lane, card: Card)
    requires WellFormed(board) && FlightsOk(flights, AssignmentOf(board).lanes, nextFlightId)
    requires card in PresentColumn(lane, Column(board, lane), flights, AssignmentOf(board).lanes.Keys)
    ensures card.departing <==> exists f :: HeldBy(flights, card.id, f)
    ensures card.arriving <==> !card.departing && card.id in AbsorbingInto(flights, lane)
  {
    CardOrigin(board, flights, nextFlightId, lane, card);
    if card in Residents(Column(board, lane), EnRouteTo(flights, lane), AbsorbingInto(flights, lane)) {
      ResidentIsFree(board, flights, nextFlightId, lane, card);
    } else {
      GreyIsHeld(flights, lane, card);
    }
  }

  lemma CardOrigin(board: Board, flights: seq<Flight>, nextFlightId: nat, lane: Lane, card: Card)
    requires WellFormed(board) && FlightsOk(flights, AssignmentOf(board).lanes, nextFlightId)
    requires card in PresentColumn(lane, Column(board, lane), flights, AssignmentOf(board).lanes.Keys)
    ensures Distinct(WorkItems(flights))
    ensures card in Residents(Column(board, lane), EnRouteTo(flights, lane), AbsorbingInto(flights, lane))
         || card in GreyCards(StableSort(Filter(flights, PendingOutOf(lane)), BySourceIndex()))
  {
    CardSources(board, flights, nextFlightId, lane);
    InSum(PresentColumn(lane, Column(board, lane), flights, AssignmentOf(board).lanes.Keys),
          Residents(Column(board, lane), EnRouteTo(flights, lane), AbsorbingInto(flights, lane)),
          GreyCards(StableSort(Filter(flights, PendingOutOf(lane)), BySourceIndex())), card);
  }

  lemma InSum<T>(whole: seq<T>, a: seq<T>, b: seq<T>, x: T)
    requires multiset(whole) == multiset(a) + multiset(b) && x in whole
    ensures x in a || x in b
  {
    assert x in multiset(whole);
    assert x in multiset(a) || x in multiset(b);
  }

  lemma CardSources(board: Board, flights: seq<Flight>, nextFlightId: nat, lane: Lane)
    requires WellFormed(board) && FlightsOk(flights, AssignmentOf(board).lanes, nextFlightId)
    ensures var sorted := StableSort(Filter(flights, PendingOutOf(lane)), BySourceIndex());
      multiset(PresentColumn(lane, Column(board, lane), flights, AssignmentOf(board).lanes.Keys))
      == multiset(Residents(Column(board, lane), EnRouteTo(flights, lane), AbsorbingInto(flights, lane)))
         + multiset(GreyCards(sorted))
  {
    AssignmentIsPlacement(board);
    var items, enRoute := Column(board, lane), EnRouteTo(flights, lane);
    var departing := Filter(flights, PendingOutOf(lane));
    assert Distinct(WorkItems(flights));
    FilterDistinct(items, NotIn(enRoute));
    FilterMembers(items, NotIn(enRoute));
    ResidentsEffect(items, enRoute, AbsorbingInto(flights, lane));
    FilterKeepsWorkItemsDistinct(flights, PendingOutOf(lane));
    FilterMembers(flights, PendingOutOf(lane));
    SortKeepsWorkItemsDistinct(departing);
    InsertGreysEffect(Residents(items, enRoute, AbsorbingInto(flights, lane)),
                      StableSort(departing, BySourceIndex()), AssignmentOf(board).lanes.Keys);
  }
}
