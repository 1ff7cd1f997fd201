/** Planning the step chips of a card: grouping by lane loses no chip and no time. */
module LifecycleChips {
  import opened Options
  import opened Sequences
  import opened Strings
  import opened PipelineLanes

  datatype Chip = Chip(phase: string, text: string, status: string, durationMs: Option<int>)

  /** Addition of durations that may be absent. */
  function Add(a: Option<int>, b: Option<int>): Option<int> {
    if a.None? then b else if b.None? then a else Some(a.value + b.value)
  }

  function SumMs(chips: seq<Chip>): Option<int> {
    if chips == [] then None else Add(SumMs(Front(chips)), Last(chips).durationMs)
  }

  method SumLaneDurationMs(chips: seq<Chip>) returns (r: Option<int>)
    ensures r == SumMs(chips)
  {
    var total, hasDuration := 0, false;
    for i := 0 to |chips|
      invariant SumMs(chips[..i]) == if hasDuration then Some(total) else None
      invariant !hasDuration ==> total == 0
    {
      assert Front(chips[..i + 1]) == chips[..i];
      if chips[i].durationMs.None? { continue; }
      hasDuration := true;
      total := total + chips[i].durationMs.value;
    }
    assert chips[..|chips|] == chips;
    r := if hasDuration then Some(total) else None;
  }

  /** An absent sum means that every duration is absent. */
  lemma {:induction false} SumIsNoneIff(chips: seq<Chip>)
    ensures SumMs(chips).None? <==> forall chip :: chip in chips ==> chip.durationMs.None?
  {
    if chips != [] {
      SumIsNoneIff(Front(chips));
      assert chips == Front(chips) + [Last(chips)];
    }
  }

  lemma {:induction false} SumConcat(a: seq<Chip>, b: seq<Chip>)
    ensures SumMs(a + b) == Add(SumMs(a), SumMs(b))
  {
    if b == [] {
      assert a + b == a;
    } else {
      SumConcat(a, Front(b));
      assert Front(a + b) == a + Front(b);
    }
  }

  // ----- lanes of chips -----

  function InLane(lane: Option<LifecycleLane>): Chip -> bool { (chip: Chip) => LifecycleLaneForPhase(chip.phase) == lane }

  /** The chips of one lane in order; `None` gives the chips of no lane. */
  function LaneChips(chips: seq<Chip>, lane: Option<LifecycleLane>): seq<Chip> { Filter(chips, InLane(lane)) }

  /** Regrouping by lane, in the order build, review, PR, no lane. */
  function Regrouped(chips: seq<Chip>): seq<Chip> {
    LaneChips(chips, Some(BuildLane)) + LaneChips(chips, Some(ReviewLane)) + LaneChips(chips, Some(PrLane)) + LaneChips(chips, None)
  }

  lemma LaneChipsSnoc(chips: seq<Chip>, lane: Option<LifecycleLane>)
    requires chips != []
    ensures var before := LaneChips(Front(chips), lane);
      LaneChips(chips, lane) == if LifecycleLaneForPhase(Last(chips).phase) == lane then before + [Last(chips)] else before
  {
  }

  lemma {:induction false} LanesOfLane(chips: seq<Chip>, lane: Option<LifecycleLane>, other: Option<LifecycleLane>)
    ensures LaneChips(LaneChips(chips, lane), other) == Kept(chips, lane, other)
  {
    if chips != [] {
      LanesOfLane(Front(chips), lane, other);
      LaneChipsSnoc(chips, lane);
      if LifecycleLaneForPhase(Last(chips).phase) == lane {
        FilterSnoc(LaneChips(Front(chips), lane), Last(chips), InLane(other));
      }
    }
  }

  /** Two chip lists with the same chips in the same order in every lane. */
  ghost predicate SameByLane(a: seq<Chip>, b: seq<Chip>) {
    forall lane :: LaneChips(a, lane) == LaneChips(b, lane)
  }

  lemma FilterFour(a: seq<Chip>, b: seq<Chip>, c: seq<Chip>, d: seq<Chip>, p: Chip -> bool)
    ensures Filter(a + b + c + d, p) == Filter(a, p) + Filter(b, p) + Filter(c, p) + Filter(d, p)
  {
    FilterConcat(a + b + c, d, p);
    FilterConcat(a + b, c, p);
    FilterConcat(a, b, p);
  }

  function Kept(chips: seq<Chip>, lane: Option<LifecycleLane>, other: Option<LifecycleLane>): seq<Chip> {
    if lane == other then LaneChips(chips, lane) else []
  }

  lemma LaneOfRegrouped(chips: seq<Chip>, lane: Option<LifecycleLane>)
    ensures LaneChips(Regrouped(chips), lane) ==
      Kept(chips, Some(BuildLane), lane) + Kept(chips, Some(ReviewLane), lane) + Kept(chips, Some(PrLane), lane) + Kept(chips, None, lane)
  {
    var a, b := LaneChips(chips, Some(BuildLane)), LaneChips(chips, Some(ReviewLane));
    var c, d := LaneChips(chips, Some(PrLane)), LaneChips(chips, None);
    FilterFour(a, b, c, d, InLane(lane));
    LanesOfLane(chips, Some(BuildLane), lane);
    LanesOfLane(chips, Some(ReviewLane), lane);
    LanesOfLane(chips, Some(PrLane), lane);
    LanesOfLane(chips, None, lane);
  }

  lemma RegroupingKeepsLane(chips: seq<Chip>, lane: Option<LifecycleLane>)
    ensures LaneChips(Regrouped(chips), lane) == LaneChips(chips, lane)
  {
    LaneOfRegrouped(chips, lane);
    match lane
    case None => assert [] + [] + [] + LaneChips(chips, lane) == LaneChips(chips, lane);
    case Some(BuildLane) => assert LaneChips(chips, lane) + [] + [] + [] == LaneChips(chips, lane);
    case Some(ReviewLane) => assert [] + LaneChips(chips, lane) + [] + [] == LaneChips(chips, lane);
    case Some(PrLane) => assert [] + [] + LaneChips(chips, lane) + [] == LaneChips(chips, lane);
  }

  /** Putting the groups one after another keeps every lane as it was. */
  lemma RegroupingKeepsLanes(chips: seq<Chip>)
    ensures SameByLane(Regrouped(chips), chips)
  {
    forall lane { RegroupingKeepsLane(chips, lane); }
  }

  /** The lanes fix the chips as a multiset and their time. */
  lemma {:induction false} LanesFixAll(chips: seq<Chip>)
    ensures multiset(chips) == multiset(Regrouped(chips)) && SumMs(chips) == SumMs(Regrouped(chips))
  {
    if chips != [] {
      LanesFixAll(Front(chips));
      assert chips == Front(chips) + [Last(chips)];
      RegroupedSnocSum(Front(chips), Last(chips));
      RegroupedSnocChips(Front(chips), Last(chips));
    }
  }

  lemma RegroupedSums(chips: seq<Chip>)
    ensures SumMs(Regrouped(chips)) ==
      Add(Add(Add(SumMs(LaneChips(chips, Some(BuildLane))), SumMs(LaneChips(chips, Some(ReviewLane)))),
              SumMs(LaneChips(chips, Some(PrLane)))), SumMs(LaneChips(chips, None)))
  {
    var a, b := LaneChips(chips, Some(BuildLane)), LaneChips(chips, Some(ReviewLane));
    var c, d := LaneChips(chips, Some(PrLane)), LaneChips(chips, None);
    SumConcat(a + b + c, d);
    SumConcat(a + b, c);
    SumConcat(a, b);
  }

  lemma LaneSnoc(chips: seq<Chip>, chip: Chip, lane: Option<LifecycleLane>)
    ensures var mine := LifecycleLaneForPhase(chip.phase) == lane;
      && LaneChips(chips + [chip], lane) == (if mine then LaneChips(chips, lane) + [chip] else LaneChips(chips, lane))
      && SumMs(LaneChips(chips + [chip], lane))
         == (if mine then Add(SumMs(LaneChips(chips, lane)), chip.durationMs) else SumMs(LaneChips(chips, lane)))
  {
    FilterSnoc(chips, chip, InLane(lane));
    assert Front(LaneChips(chips, lane) + [chip]) == LaneChips(chips, lane);
  }

  lemma SnocOfFour(a: Option<int>, b: Option<int>, c: Option<int>, d: Option<int>, x: Option<int>)
    ensures Add(Add(Add(Add(a, x), b), c), d) == Add(Add(Add(Add(a, b), c), d), x)
    ensures Add(Add(Add(a, Add(b, x)), c), d) == Add(Add(Add(Add(a, b), c), d), x)
    ensures Add(Add(Add(a, b), Add(c, x)), d) == Add(Add(Add(Add(a, b), c), d), x)
    ensures Add(Add(Add(a, b), c), Add(d, x)) == Add(Add(Add(Add(a, b), c), d), x)
  {
  }

  lemma RegroupedSnocSum(chips: seq<Chip>, chip: Chip)
    ensures SumMs(Regrouped(chips + [chip])) == Add(SumMs(Regrouped(chips)), chip.durationMs)
  {
    LaneSnoc(chips, chip, Some(BuildLane));
    LaneSnoc(chips, chip, Some(ReviewLane));
    LaneSnoc(chips, chip, Some(PrLane));
    LaneSnoc(chips, chip, None);
    RegroupedSums(chips);
    RegroupedSums(chips + [chip]);
    SnocOfFour(SumMs(LaneChips(chips, Some(BuildLane))), SumMs(LaneChips(chips, Some(ReviewLane))),
               SumMs(LaneChips(chips, Some(PrLane))), SumMs(LaneChips(chips, None)), chip.durationMs);
  }

  lemma RegroupedSnocChips(chips: seq<Chip>, chip: Chip)
    ensures multiset(Regrouped(chips + [chip])) == multiset(Regrouped(chips)) + multiset{chip}
  {
    FilterSnoc(chips, chip, InLane(Some(BuildLane)));
    FilterSnoc(chips, chip, InLane(Some(ReviewLane)));
    FilterSnoc(chips, chip, InLane(Some(PrLane)));
    FilterSnoc(chips, chip, InLane(None));
  }

  lemma SameByLaneKeepsAll(a: seq<Chip>, b: seq<Chip>)
    requires SameByLane(a, b)
    ensures multiset(a) == multiset(b) && SumMs(a) == SumMs(b)
  {
    LanesFixAll(a);
    LanesFixAll(b);
    assert Regrouped(a) == Regrouped(b);
  }

  // ----- the plan -----

  datatype Block =
    | EarlierLane(lane: LifecycleLane, laneLabel: string, durationMs: Option<int>, expanded: bool, chips: seq<Chip>)
    | FocusLane(focus: Option<LifecycleLane>, chips: seq<Chip>)
    | FullList(chips: seq<Chip>)

  datatype Choices = Choices(
    collapseEarlierLanes: bool,
    focusLane: Option<LifecycleLane>,
    expandedEarlierLanes: set<LifecycleLane>,
    collapseAllReachedLanes: bool,
    prLaneLabel: Option<string>)

  function LaneSummaryLabel(lane: LifecycleLane, choices: Choices): string {
    match lane
    case BuildLane => "Build"
    case ReviewLane => "Review"
    case PrLane => if choices.prLaneLabel.Some? then choices.prLaneLabel.value else "PR"
  }

  function Rank(lane: LifecycleLane): nat {
    match lane case BuildLane => 0 case ReviewLane => 1 case PrLane => 2
  }

  /** The lanes strictly before the focus, in order. */
  function EarlierLifecycleLanes(focus: LifecycleLane): (r: seq<LifecycleLane>)
    ensures forall lane :: lane in r <==> Rank(lane) < Rank(focus)
    ensures forall i, j :: 0 <= i < j < |r| ==> Rank(r[i]) < Rank(r[j])
  {
    assert LIFECYCLE_LANE_ORDER[0] == BuildLane && LIFECYCLE_LANE_ORDER[1] == ReviewLane;
    assert forall lane: LifecycleLane :: LIFECYCLE_LANE_ORDER[Rank(lane)] == lane;
    LIFECYCLE_LANE_ORDER[..Rank(focus)]
  }

  function CollapsedLane(labels: seq<Chip>, lane: LifecycleLane, choices: Choices): seq<Block> {
    var chips := LaneChips(labels, Some(lane));
    if chips == [] then []
    else [EarlierLane(lane, LaneSummaryLabel(lane, choices), SumMs(chips), lane in choices.expandedEarlierLanes, chips)]
  }

  function CollapsedLanes(labels: seq<Chip>, lanes: seq<LifecycleLane>, choices: Choices): seq<Block> {
    if lanes == [] then [] else CollapsedLanes(labels, Front(lanes), choices) + CollapsedLane(labels, Last(lanes), choices)
  }

  function GroupsOf(labels: seq<Chip>, lanes: seq<LifecycleLane>): seq<Chip> {
    if lanes == [] then [] else GroupsOf(labels, Front(lanes)) + LaneChips(labels, Some(Last(lanes)))
  }

  function FocusChips(labels: seq<Chip>, focus: LifecycleLane): seq<Chip> {
    LaneChips(labels, Some(focus)) + GroupsOf(labels, LIFECYCLE_LANE_ORDER[Rank(focus) + 1..]) + LaneChips(labels, None)
  }

  predicate ShowsAll(labels: seq<Chip>, choices: Choices) {
    !choices.collapseEarlierLanes || labels == [] || (!choices.collapseAllReachedLanes && choices.focusLane.None?)
  }

  function Plan(labels: seq<Chip>, choices: Choices): seq<Block> {
    if ShowsAll(labels, choices) then [FullList(labels)]
    else if choices.collapseAllReachedLanes then
      var ungrouped := LaneChips(labels, None);
      var blocks := CollapsedLanes(labels, LIFECYCLE_LANE_ORDER, choices)
                    + if ungrouped == [] then [] else [FocusLane(None, ungrouped)];
      if blocks == [] then [FullList(labels)] else blocks
    else
      var blocks := CollapsedLanes(labels, EarlierLifecycleLanes(choices.focusLane.value), choices);
      var chips := FocusChips(labels, choices.focusLane.value);
      if chips != [] || blocks == [] then blocks + [FocusLane(choices.focusLane, chips)] else blocks
  }

  function AllChips(blocks: seq<Block>): seq<Chip> {
    if blocks == [] then [] else AllChips(Front(blocks)) + Last(blocks).chips
  }

  // ----- what a plan shows -----

  lemma {:induction false} AllChipsConcat(a: seq<Block>, b: seq<Block>)
    ensures AllChips(a + b) == AllChips(a) + AllChips(b)
  {
    if b == [] {
      assert a + b == a;
    } else {
      AllChipsConcat(a, Front(b));
      assert Front(a + b) == a + Front(b);
    }
  }

  lemma {:induction false} CollapsedHold(labels: seq<Chip>, lanes: seq<LifecycleLane>, choices: Choices)
    ensures AllChips(CollapsedLanes(labels, lanes, choices)) == GroupsOf(labels, lanes)
  {
    if lanes != [] {
      CollapsedHold(labels, Front(lanes), choices);
      var last := CollapsedLane(labels, Last(lanes), choices);
      AllChipsConcat(CollapsedLanes(labels, Front(lanes), choices), last);
      if last != [] {
        assert Front(last) == [] && AllChips(last) == LaneChips(labels, Some(Last(lanes)));
      }
    }
  }

  lemma GroupsOfOne(labels: seq<Chip>, p: LifecycleLane)
    ensures GroupsOf(labels, []) == [] && GroupsOf(labels, [p]) == LaneChips(labels, Some(p))
  {
    assert Front([p]) == [];
  }

  lemma GroupsOfTwo(labels: seq<Chip>, p: LifecycleLane, q: LifecycleLane)
    ensures GroupsOf(labels, [p, q]) == LaneChips(labels, Some(p)) + LaneChips(labels, Some(q))
  {
    GroupsOfOne(labels, p);
    assert Front([p, q]) == [p];
  }

  lemma GroupsOfAll(labels: seq<Chip>)
    ensures GroupsOf(labels, LIFECYCLE_LANE_ORDER) + LaneChips(labels, None) == Regrouped(labels)
  {
    GroupsOfTwo(labels, BuildLane, ReviewLane);
    assert Front(LIFECYCLE_LANE_ORDER) == [BuildLane, ReviewLane];
  }

  lemma BuildPlanHolds(labels: seq<Chip>)
    ensures GroupsOf(labels, EarlierLifecycleLanes(BuildLane)) + FocusChips(labels, BuildLane) == Regrouped(labels)
  {
    assert EarlierLifecycleLanes(BuildLane) == [] && LIFECYCLE_LANE_ORDER[1..] == [ReviewLane, PrLane];
    GroupsOfTwo(labels, ReviewLane, PrLane);
  }

  lemma ReviewPlanHolds(labels: seq<Chip>)
    ensures GroupsOf(labels, EarlierLifecycleLanes(ReviewLane)) + FocusChips(labels, ReviewLane) == Regrouped(labels)
  {
    assert EarlierLifecycleLanes(ReviewLane) == [BuildLane] && LIFECYCLE_LANE_ORDER[2..] == [PrLane];
    GroupsOfOne(labels, BuildLane);
    GroupsOfOne(labels, PrLane);
  }

  lemma PrPlanHolds(labels: seq<Chip>)
    ensures GroupsOf(labels, EarlierLifecycleLanes(PrLane)) + FocusChips(labels, PrLane) == Regrouped(labels)
  {
    assert EarlierLifecycleLanes(PrLane) == [BuildLane, ReviewLane] && LIFECYCLE_LANE_ORDER[3..] == [];
    GroupsOfTwo(labels, BuildLane, ReviewLane);
    GroupsOfOne(labels, PrLane);
  }

  lemma FocusPlanHolds(labels: seq<Chip>, focus: LifecycleLane)
    ensures GroupsOf(labels, EarlierLifecycleLanes(focus)) + FocusChips(labels, focus) == Regrouped(labels)
  {
    match focus
    case BuildLane => BuildPlanHolds(labels);
    case ReviewLane => ReviewPlanHolds(labels);
    case PrLane => PrPlanHolds(labels);
  }

  /** A plan shows the chips regrouped by lane, or exactly as given. */
  lemma PlanHolds(labels: seq<Chip>, choices: Choices)
    ensures AllChips(Plan(labels, choices)) == if ShowsAll(labels, choices) then labels else Regrouped(labels)
  {
    if ShowsAll(labels, choices) {
      assert Front([FullList(labels)]) == [];
    } else if choices.collapseAllReachedLanes {
      var ungrouped := LaneChips(labels, None);
      var collapsed := CollapsedLanes(labels, LIFECYCLE_LANE_ORDER, choices);
      var tail := if ungrouped == [] then [] else [FocusLane(None, ungrouped)];
      CollapsedHold(labels, LIFECYCLE_LANE_ORDER, choices);
      GroupsOfAll(labels);
      AllChipsConcat(collapsed, tail);
      if ungrouped != [] { assert Front(tail) == []; }
      assert AllChips(collapsed + tail) == Regrouped(labels);
      if collapsed + tail == [] { LanesFixAll(labels); }
    } else {
      var focus := choices.focusLane.value;
      var blocks := CollapsedLanes(labels, EarlierLifecycleLanes(focus), choices);
      CollapsedHold(labels, EarlierLifecycleLanes(focus), choices);
      FocusPlanHolds(labels, focus);
      assert Front(blocks + [FocusLane(choices.focusLane, FocusChips(labels, focus))]) == blocks;
    }
  }

  /**
   * Planning conserves the chips: as a multiset, in order within every lane, and in total time,
   * for every list and every choice.
   */
  lemma PlanConserves(labels: seq<Chip>, choices: Choices)
    ensures SameByLane(AllChips(Plan(labels, choices)), labels)
    ensures multiset(AllChips(Plan(labels, choices))) == multiset(labels)
    ensures SumMs(AllChips(Plan(labels, choices))) == SumMs(labels)
  {
    PlanHolds(labels, choices);
    RegroupingKeepsLanes(labels);
    SameByLaneKeepsAll(AllChips(Plan(labels, choices)), labels);
  }

  function BlockMs(block: Block): Option<int> {
    if block.EarlierLane? then block.durationMs else SumMs(block.chips)
  }

  function BlocksMs(blocks: seq<Block>): Option<int> {
    if blocks == [] then None else Add(BlocksMs(Front(blocks)), BlockMs(Last(blocks)))
  }

  /** Collapsed blocks of distinct lanes in order, each with its lane's chips and their time; at most one more block, at the end. */
  ghost predicate WellFormed(blocks: seq<Block>) {
    && blocks != []
    && (forall i :: 0 <= i < |blocks| - 1 ==> blocks[i].EarlierLane?)
    && (forall i, j :: 0 <= i < j < |blocks| && blocks[j].EarlierLane? ==> Rank(blocks[i].lane) < Rank(blocks[j].lane))
    && (forall i :: 0 <= i < |blocks| - 1 && Last(blocks).FocusLane? && Last(blocks).focus.Some? ==>
          Rank(blocks[i].lane) < Rank(Last(blocks).focus.value))
    && (forall i :: 0 <= i < |blocks| ==> BlockOk(blocks[i]))
  }

  ghost predicate BlockOk(block: Block) {
    block.EarlierLane? ==>
      && block.chips != [] && block.durationMs == SumMs(block.chips)
      && forall chip :: chip in block.chips ==> LifecycleLaneForPhase(chip.phase) == Some(block.lane)
  }

  ghost predicate CollapsedOk(blocks: seq<Block>, lanes: seq<LifecycleLane>) {
    && (forall i :: 0 <= i < |blocks| ==> blocks[i].EarlierLane? && BlockOk(blocks[i]) && blocks[i].lane in lanes)
    && (forall i, j :: 0 <= i < j < |blocks| ==> Rank(blocks[i].lane) < Rank(blocks[j].lane))
  }

  lemma CollapsedOneMore(blocks: seq<Block>, lanes: seq<LifecycleLane>, lane: LifecycleLane, more: seq<Block>)
    requires CollapsedOk(blocks, lanes) && forall other :: other in lanes ==> Rank(other) < Rank(lane)
    requires |more| <= 1 && (more != [] ==> more[0].EarlierLane? && BlockOk(more[0]) && more[0].lane == lane)
    ensures CollapsedOk(blocks + more, lanes + [lane])
  {
    var r := blocks + more;
    forall i | 0 <= i < |r| ensures r[i].EarlierLane? && BlockOk(r[i]) && r[i].lane in lanes + [lane] {
    }
    forall i, j | 0 <= i < j < |r| ensures Rank(r[i].lane) < Rank(r[j].lane) {
    }
  }

  lemma CollapsedLaneIsOk(labels: seq<Chip>, lane: LifecycleLane, choices: Choices)
    ensures var more := CollapsedLane(labels, lane, choices);
      |more| <= 1 && (more != [] ==> more[0].EarlierLane? && BlockOk(more[0]) && more[0].lane == lane)
  {
    FilterMembers(labels, InLane(Some(lane)));
  }

  lemma {:induction false} CollapsedAreOk(labels: seq<Chip>, lanes: seq<LifecycleLane>, choices: Choices)
    requires forall i, j :: 0 <= i < j < |lanes| ==> Rank(lanes[i]) < Rank(lanes[j])
    ensures CollapsedOk(CollapsedLanes(labels, lanes, choices), lanes)
  {
    if lanes != [] {
      CollapsedAreOk(labels, Front(lanes), choices);
      CollapsedLaneIsOk(labels, Last(lanes), choices);
      CollapsedOneMore(CollapsedLanes(labels, Front(lanes), choices), Front(lanes), Last(lanes),
                       CollapsedLane(labels, Last(lanes), choices));
      assert lanes == Front(lanes) + [Last(lanes)];
    }
  }

  lemma CollapsedAlone(blocks: seq<Block>, lanes: seq<LifecycleLane>)
    requires CollapsedOk(blocks, lanes) && blocks != []
    ensures WellFormed(blocks)
  {
  }

  /** Collapsed blocks followed by a focus block whose lane comes later. */
  lemma CollapsedThenFocus(blocks: seq<Block>, lanes: seq<LifecycleLane>, focus: Block)
    requires CollapsedOk(blocks, lanes) && focus.FocusLane?
    requires focus.focus.Some? ==> forall lane :: lane in lanes ==> Rank(lane) < Rank(focus.focus.value)
    ensures WellFormed(blocks + [focus])
  {
    var r := blocks + [focus];
    forall i | 0 <= i < |r| - 1 ensures r[i] == blocks[i] && r[i].EarlierLane? && r[i].lane in lanes {
    }
  }

  lemma PlanIsWellFormed(labels: seq<Chip>, choices: Choices)
    ensures WellFormed(Plan(labels, choices))
  {
    if !ShowsAll(labels, choices) {
      var lanes := if choices.collapseAllReachedLanes then LIFECYCLE_LANE_ORDER else EarlierLifecycleLanes(choices.focusLane.value);
      var blocks := CollapsedLanes(labels, lanes, choices);
      CollapsedAreOk(labels, lanes, choices);
      if choices.collapseAllReachedLanes {
        CollapsedThenFocus(blocks, lanes, FocusLane(None, LaneChips(labels, None)));
      } else {
        CollapsedThenFocus(blocks, lanes, FocusLane(choices.focusLane, FocusChips(labels, choices.focusLane.value)));
      }
      if blocks != [] {
        CollapsedAlone(blocks, lanes);
        assert blocks + [] == blocks;
      }
    }
  }

  /** The block that stands for the chips of its lane. */
  ghost predicate StandsForLane(labels: seq<Chip>, choices: Choices, block: Block) {
    block.EarlierLane? && CollapsedLane(labels, block.lane, choices) == [block]
  }

  lemma CollapsedLaneIs(labels: seq<Chip>, lane: LifecycleLane, choices: Choices, block: Block)
    ensures block in CollapsedLane(labels, lane, choices) <==> StandsForLane(labels, choices, block) && block.lane == lane
  {
    var blocks := CollapsedLane(labels, lane, choices);
    if blocks != [] { assert blocks == [blocks[0]]; }
  }

  lemma {:induction false} CollapsedAreThese(labels: seq<Chip>, lanes: seq<LifecycleLane>, choices: Choices, block: Block)
    ensures block in CollapsedLanes(labels, lanes, choices) <==>
      StandsForLane(labels, choices, block) && block.lane in lanes
  {
    if lanes != [] {
      var before, last := CollapsedLanes(labels, Front(lanes), choices), CollapsedLane(labels, Last(lanes), choices);
      CollapsedAreThese(labels, Front(lanes), choices, block);
      CollapsedLaneIs(labels, Last(lanes), choices, block);
      InConcat(before, last, block);
      if block.EarlierLane? { InSnoc(lanes, block.lane); }
    }
  }

  /** The full list appears, alone, exactly if collapsing is off, there is nothing to show, or no lane to focus on. */
  lemma FullListIff(labels: seq<Chip>, choices: Choices)
    ensures Plan(labels, choices) == [FullList(labels)] <==>
      !choices.collapseEarlierLanes || labels == [] || (choices.focusLane.None? && !choices.collapseAllReachedLanes)
    ensures (exists block :: block in Plan(labels, choices) && block.FullList?) <==> Plan(labels, choices) == [FullList(labels)]
  {
    var plan := Plan(labels, choices);
    if !ShowsAll(labels, choices) { PlanIsNotFull(labels, choices); }
    assert plan[0] in plan;
  }

  lemma PlanIsNotFull(labels: seq<Chip>, choices: Choices)
    requires !ShowsAll(labels, choices)
    ensures Plan(labels, choices) != [] && forall block :: block in Plan(labels, choices) ==> !block.FullList?
  {
    forall block | block in Plan(labels, choices) ensures !block.FullList? {
      CollapsedAreThese(labels, LIFECYCLE_LANE_ORDER, choices, block);
      if choices.focusLane.Some? { CollapsedAreThese(labels, EarlierLifecycleLanes(choices.focusLane.value), choices, block); }
      if choices.collapseAllReachedLanes { SomethingToCollapse(labels, choices); }
    }
    if choices.collapseAllReachedLanes { SomethingToCollapse(labels, choices); }
  }

  lemma SomethingToCollapse(labels: seq<Chip>, choices: Choices)
    requires labels != []
    ensures CollapsedLanes(labels, LIFECYCLE_LANE_ORDER, choices) != [] || LaneChips(labels, None) != []
  {
    if CollapsedLanes(labels, LIFECYCLE_LANE_ORDER, choices) == [] {
      CollapsedHold(labels, LIFECYCLE_LANE_ORDER, choices);
      GroupsOfAll(labels);
      RegroupingKeepsLanes(labels);
      SameByLaneKeepsAll(Regrouped(labels), labels);
      assert labels[0] in multiset(Regrouped(labels));
    }
  }

  /** The lanes that are to collapse. */
  function Collapsing(choices: Choices): seq<LifecycleLane> {
    if choices.collapseAllReachedLanes then LIFECYCLE_LANE_ORDER
    else if choices.focusLane.Some? then EarlierLifecycleLanes(choices.focusLane.value) else []
  }

  lemma CollapsedBlocks(labels: seq<Chip>, choices: Choices, block: Block)
    requires block.EarlierLane?
    ensures block in Plan(labels, choices) <==>
      !ShowsAll(labels, choices) && block.lane in Collapsing(choices) && StandsForLane(labels, choices, block)
  {
    CollapsedAreThese(labels, Collapsing(choices), choices, block);
    if choices.collapseAllReachedLanes && labels != [] { SomethingToCollapse(labels, choices); }
  }

  /** A lane is collapsed exactly if collapsing is on, it has chips, and all lanes are to collapse or the focus comes later. */
  lemma LaneCollapsesIff(labels: seq<Chip>, choices: Choices, lane: LifecycleLane)
    ensures (exists block :: block in Plan(labels, choices) && block.EarlierLane? && block.lane == lane) <==>
      && choices.collapseEarlierLanes && LaneChips(labels, Some(lane)) != []
      && (choices.collapseAllReachedLanes || (choices.focusLane.Some? && Rank(lane) < Rank(choices.focusLane.value)))
  {
    assert LIFECYCLE_LANE_ORDER[Rank(lane)] == lane;
    if block :| block in Plan(labels, choices) && block.EarlierLane? && block.lane == lane {
      CollapsedBlocks(labels, choices, block);
    }
    if LaneChips(labels, Some(lane)) != [] {
      var block := CollapsedLane(labels, lane, choices)[0];
      assert StandsForLane(labels, choices, block);
      CollapsedBlocks(labels, choices, block);
    }
  }

  /** A collapsed lane shows the chips of that lane, is open if the user opened it, and bears its own name. */
  lemma CollapsedBlockIs(labels: seq<Chip>, choices: Choices, block: Block)
    requires block in Plan(labels, choices) && block.EarlierLane?
    ensures block.chips == LaneChips(labels, Some(block.lane)) && (block.expanded <==> block.lane in choices.expandedEarlierLanes)
    ensures block.laneLabel == match block.lane
                               case BuildLane => "Build"
                               case ReviewLane => "Review"
                               case PrLane => if choices.prLaneLabel.Some? then choices.prLaneLabel.value else "PR"
  {
    CollapsedBlocks(labels, choices, block);
  }

  lemma {:induction false} BlocksMsIsSum(blocks: seq<Block>)
    requires forall i :: 0 <= i < |blocks| ==> BlockOk(blocks[i])
    ensures BlocksMs(blocks) == SumMs(AllChips(blocks))
  {
    if blocks != [] {
      BlocksMsIsSum(Front(blocks));
      SumConcat(AllChips(Front(blocks)), Last(blocks).chips);
    }
  }

  /** The durations shown by the blocks add up to the duration of the whole list. */
  lemma {:induction false} BlockTimesAddUp(labels: seq<Chip>, choices: Choices)
    ensures BlocksMs(Plan(labels, choices)) == SumMs(labels)
  {
    PlanIsWellFormed(labels, choices);
    BlocksMsIsSum(Plan(labels, choices));
    PlanConserves(labels, choices);
  }

  // ----- the loops -----

  /** Buckets that hold the chips of each lane seen so far; a lane without chips has no bucket. */
  ghost predicate Bucketed(byLane: map<LifecycleLane, seq<Chip>>, ungrouped: seq<Chip>, labels: seq<Chip>) {
    && ungrouped == LaneChips(labels, None)
    && forall lane :: Bucket(byLane, lane) == LaneChips(labels, Some(lane))
  }

  function Bucket(byLane: map<LifecycleLane, seq<Chip>>, lane: LifecycleLane): seq<Chip> {
    if lane in byLane then byLane[lane] else []
  }

  lemma BucketStep(byLane: map<LifecycleLane, seq<Chip>>, ungrouped: seq<Chip>, labels: seq<Chip>, chip: Chip)
    requires Bucketed(byLane, ungrouped, labels)
    ensures var lane := LifecycleLaneForPhase(chip.phase);
      && (lane.None? ==> Bucketed(byLane, ungrouped + [chip], labels + [chip]))
      && (lane.Some? ==> Bucketed(byLane[lane.value := Bucket(byLane, lane.value) + [chip]], ungrouped, labels + [chip]))
  {
    forall lane { FilterSnoc(labels, chip, InLane(lane)); }
  }

  method GroupByLane(labels: seq<Chip>) returns (byLane: map<LifecycleLane, seq<Chip>>, ungrouped: seq<Chip>)
    ensures Bucketed(byLane, ungrouped, labels)
  {
    byLane, ungrouped := map[], [];
    for i := 0 to |labels|
      invariant Bucketed(byLane, ungrouped, labels[..i])
    {
      var chip := labels[i];
      assert labels[..i + 1] == labels[..i] + [chip];
      BucketStep(byLane, ungrouped, labels[..i], chip);
      var lane := LifecycleLaneForPhase(chip.phase);
      if lane.None? {
        ungrouped := ungrouped + [chip];
        continue;
      }
      if lane.value !in byLane {
        byLane := byLane[lane.value := [chip]];
      } else {
        byLane := byLane[lane.value := byLane[lane.value] + [chip]];
      }
    }
    assert labels[..|labels|] == labels;
  }

  method CollapseLanes(labels: seq<Chip>, byLane: map<LifecycleLane, seq<Chip>>, lanes: seq<LifecycleLane>, choices: Choices)
    returns (blocks: seq<Block>)
    requires forall lane :: Bucket(byLane, lane) == LaneChips(labels, Some(lane))
    ensures blocks == CollapsedLanes(labels, lanes, choices)
  {
    blocks := [];
    for i := 0 to |lanes|
      invariant blocks == CollapsedLanes(labels, lanes[..i], choices)
    {
      var lane := lanes[i];
      assert Front(lanes[..i + 1]) == lanes[..i];
      var chips := Bucket(byLane, lane);
      assert chips == LaneChips(labels, Some(lane));
      if |chips| == 0 { continue; }
      var durationMs := SumLaneDurationMs(chips);
      blocks := blocks + [EarlierLane(lane, LaneSummaryLabel(lane, choices), durationMs, lane in choices.expandedEarlierLanes, chips)];
    }
    assert lanes[..|lanes|] == lanes;
  }

  method CollectFocusChips(labels: seq<Chip>, byLane: map<LifecycleLane, seq<Chip>>, ungrouped: seq<Chip>, focus: LifecycleLane)
    returns (chips: seq<Chip>)
    requires Bucketed(byLane, ungrouped, labels)
    ensures chips == FocusChips(labels, focus)
  {
    var later := LIFECYCLE_LANE_ORDER[Rank(focus) + 1..];
    var laterChips: seq<Chip> := [];
    for i := 0 to |later|
      invariant laterChips == GroupsOf(labels, later[..i])
    {
      assert Front(later[..i + 1]) == later[..i];
      laterChips := laterChips + Bucket(byLane, later[i]);
    }
    assert later[..|later|] == later;
    chips := Bucket(byLane, focus) + laterChips + ungrouped;
  }

  method PlanLifecycleChipPresentation(labels: seq<Chip>, choices: Choices) returns (blocks: seq<Block>)
    ensures blocks == Plan(labels, choices)
  {
    if !choices.collapseEarlierLanes || |labels| == 0 || (!choices.collapseAllReachedLanes && choices.focusLane.None?) {
      return [FullList(labels)];
    }
    var byLane, ungrouped := GroupByLane(labels);
    if choices.collapseAllReachedLanes {
      blocks := CollapseLanes(labels, byLane, LIFECYCLE_LANE_ORDER, choices);
      if |ungrouped| > 0 {
        blocks := blocks + [FocusLane(None, ungrouped)];
      }
      if |blocks| == 0 {
        blocks := [FullList(labels)];
      }
      return;
    }
    blocks := CollapseLanes(labels, byLane, EarlierLifecycleLanes(choices.focusLane.value), choices);
    var focusChips := CollectFocusChips(labels, byLane, ungrouped, choices.focusLane.value);
    if |focusChips| > 0 || |blocks| == 0 {
      blocks := blocks + [FocusLane(choices.focusLane, focusChips)];
    }
  }
}
