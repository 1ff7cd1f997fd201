/** The condensed Build, Review, change-request journey of an archived work item. */
module ArchiveLegs {
  import opened Options
  import opened Sequences
  import opened Strings
  import opened PipelineLanes
  import opened LifecycleChips

  datatype Group = BuildGroup | ReviewGroup | ChecksGroup | MergeGroup | OtherPrGroup

  const CHECKS_PHASES: set<string> := {"GITHUB_STATUS_CHECKS", "WATCH_PR_STATUS_CHECKS", "INVESTIGATE_PR_STATUS_CHECKS"}

  const MERGE_PHASES: set<string> := {"MERGE_PR"}

  const OTHER_PR_PHASES: set<string> :=
    {"COMMIT", "CREATE_PR", "RESOLVE_PR_MERGE_CONFLICT", "MARK_PR_READY_FOR_REVIEW", "DECIDE_PR_MERGE", "CLOSE_ISSUE", "LOCAL_CLEANUP"}

  function GroupForPhase(phase: string): Option<Group> {
    if phase in BUILD_LIFECYCLE_STATES then Some(BuildGroup)
    else if phase in REVIEW_LIFECYCLE_STATES then Some(ReviewGroup)
    else if phase in CHECKS_PHASES then Some(ChecksGroup)
    else if phase in MERGE_PHASES then Some(MergeGroup)
    else if phase in OTHER_PR_PHASES then Some(OtherPrGroup)
    else match LifecycleLaneForPhase(phase)
      case Some(BuildLane) => Some(BuildGroup)
      case Some(ReviewLane) => Some(ReviewGroup)
      case Some(PrLane) => Some(OtherPrGroup)
      case None => None
  }

  function LaneOfGroup(group: Group): LifecycleLane {
    match group case BuildGroup => BuildLane case ReviewGroup => ReviewLane case _ => PrLane
  }

  /** The archive groups phases as the board does, only finer. */
  lemma GroupsRefineLanes(phase: string)
    ensures (if GroupForPhase(phase).Some? then Some(LaneOfGroup(GroupForPhase(phase).value)) else None) == LifecycleLaneForPhase(phase)
  {
    assert CHECKS_PHASES + MERGE_PHASES + OTHER_PR_PHASES == PR_PHASES;
  }

  function InGroup(group: Group): Chip -> bool { (chip: Chip) => GroupForPhase(chip.phase) == Some(group) }

  function GroupChips(chips: seq<Chip>, group: Group): seq<Chip> { Filter(chips, InGroup(group)) }

  function PrChips(chips: seq<Chip>): seq<Chip> {
    GroupChips(chips, ChecksGroup) + GroupChips(chips, MergeGroup) + GroupChips(chips, OtherPrGroup)
  }

  ghost predicate Grouping(buckets: map<Group, seq<Chip>>, labels: seq<Chip>) {
    forall group :: group in buckets && buckets[group] == GroupChips(labels, group)
  }

  lemma NoneGrouped(buckets: map<Group, seq<Chip>>)
    requires buckets == map[BuildGroup := [], ReviewGroup := [], ChecksGroup := [], MergeGroup := [], OtherPrGroup := []]
    ensures Grouping(buckets, [])
  {
    forall group: Group ensures group in buckets && buckets[group] == [] {
      match group
      case BuildGroup =>
      case ReviewGroup =>
      case ChecksGroup =>
      case MergeGroup =>
      case OtherPrGroup =>
    }
  }

  lemma GroupSnoc(labels: seq<Chip>, chip: Chip, group: Group)
    ensures GroupChips(labels + [chip], group) ==
      if GroupForPhase(chip.phase) == Some(group) then GroupChips(labels, group) + [chip] else GroupChips(labels, group)
  {
    FilterSnoc(labels, chip, InGroup(group));
  }

  lemma GroupingStep(buckets: map<Group, seq<Chip>>, labels: seq<Chip>, chip: Chip)
    requires Grouping(buckets, labels)
    ensures var group := GroupForPhase(chip.phase);
      && (group.None? ==> Grouping(buckets, labels + [chip]))
      && (group.Some? ==> Grouping(buckets[group.value := buckets[group.value] + [chip]], labels + [chip]))
  {
    var of := GroupForPhase(chip.phase);
    var more := if of.Some? then buckets[of.value := buckets[of.value] + [chip]] else buckets;
    forall group ensures group in more && more[group] == GroupChips(labels + [chip], group) {
      GroupSnoc(labels, chip, group);
    }
  }

  /** The loop of `collectGroups`. */
  method CollectGroups(labels: seq<Chip>) returns (buckets: map<Group, seq<Chip>>)
    ensures Grouping(buckets, labels)
  {
    buckets := map[BuildGroup := [], ReviewGroup := [], ChecksGroup := [], MergeGroup := [], OtherPrGroup := []];
    NoneGrouped(buckets);
    for i := 0 to |labels|
      invariant Grouping(buckets, labels[..i])
    {
      var chip := labels[i];
      assert labels[..i + 1] == labels[..i] + [chip];
      GroupingStep(buckets, labels[..i], chip);
      var group := GroupForPhase(chip.phase);
      if group.None? { continue; }
      buckets := buckets[group.value := buckets[group.value] + [chip]];
    }
    assert labels[..|labels|] == labels;
  }

  method SumNullableMs(parts: seq<Option<int>>) returns (r: Option<int>)
    ensures r == SumParts(parts)
  {
    var total, found := 0, false;
    for i := 0 to |parts|
      invariant SumParts(parts[..i]) == if found then Some(total) else None
      invariant !found ==> total == 0
    {
      assert Front(parts[..i + 1]) == parts[..i];
      if parts[i].None? { continue; }
      total, found := total + parts[i].value, true;
    }
    assert parts[..|parts|] == parts;
    r := if found then Some(total) else None;
  }

  function SumParts(parts: seq<Option<int>>): Option<int> {
    if parts == [] then None else Add(SumParts(Front(parts)), Last(parts))
  }

  // ----- items and legs -----

  datatype Item = Item(status: string, state: string, pullRequestNumber: Option<int>, completionSummary: Option<string>, labels: seq<Chip>)

  datatype Kind = Done | Skip | Fail
  datatype LegId = BuildLeg | ReviewLeg | PrLeg | NoPrLeg

  /** A leg without its wording. */
  datatype Leg = Leg(id: LegId, kind: Kind, durationMs: Option<int>, lane: Option<LifecycleLane>, chips: seq<Chip>)

  predicate IsFailedStatus(status: string) { status == "FAILED" || status == "INTERRUPTED" }

  predicate Failed(chip: Chip) { IsFailedStatus(chip.status) }

  predicate AnyFailed(chips: seq<Chip>) { exists i :: 0 <= i < |chips| && Failed(chips[i]) }

  predicate AnySucceeded(chips: seq<Chip>) {
    exists i :: 0 <= i < |chips| && (chips[i].status == "SUCCEEDED" || chips[i].status == "COMPLETE")
  }

  predicate IsNoChangeComplete(item: Item) {
    && (item.status == "COMPLETE" || item.state == "COMPLETE")
    && item.pullRequestNumber.None?
    && item.completionSummary.Some? && Trim(item.completionSummary.value) != ""
  }

  predicate IsAbandoned(item: Item) { item.status == "ABANDONED" || item.state == "ABANDONED" }

  predicate IsComplete(item: Item) { item.status == "COMPLETE" || item.status == "SUCCEEDED" || item.state == "COMPLETE" }

  predicate HasPr(item: Item) { item.pullRequestNumber.Some? && item.pullRequestNumber.value > 0 }

  function DoneLeg(id: LegId, lane: LifecycleLane, chips: seq<Chip>): Leg { Leg(id, Done, SumMs(chips), Some(lane), chips) }

  function SkipLeg(id: LegId): Leg { Leg(id, Skip, None, None, []) }

  function FailLeg(id: LegId, durationMs: Option<int>, chips: seq<Chip>): Leg { Leg(id, Fail, durationMs, None, chips) }

  function FailedOnly(): Chip -> bool { (chip: Chip) => Failed(chip) }

  // ----- the journey, stop by stop -----

  /** Why the journey broke: the first stop with a failure, for abandoned items only. */
  datatype Break = Unbroken | AtBuild | AtReview | AtPr

  function BreakOf(item: Item): Break {
    if IsComplete(item) || !IsAbandoned(item) then Unbroken
    else if AnyFailed(GroupChips(item.labels, BuildGroup)) then AtBuild
    else if AnyFailed(GroupChips(item.labels, ReviewGroup)) then AtReview
    else if AnyFailed(PrChips(item.labels)) then AtPr
    else Unbroken
  }

  /** Chips of an incomplete item's stop that were passed without failure. */
  predicate Passed(chips: seq<Chip>) { chips != [] && !AnyFailed(chips) }

  /** Nothing reached the change request, and the item is abandoned or reached nothing else either. */
  predicate ShowsUnreached(item: Item) {
    && !IsComplete(item)
    && PrChips(item.labels) == [] && !BreakOf(item).AtReview?
    && (IsAbandoned(item) || (!Passed(GroupChips(item.labels, BuildGroup)) && !Passed(GroupChips(item.labels, ReviewGroup))))
  }

  function BuildStop(item: Item): seq<Leg> {
    var chips := GroupChips(item.labels, BuildGroup);
    if IsComplete(item) then
      if IsNoChangeComplete(item) || HasPr(item) || chips != []
         || (GroupChips(item.labels, ReviewGroup) == [] && PrChips(item.labels) == [])
      then [DoneLeg(BuildLeg, BuildLane, chips)] else []
    else if BreakOf(item).AtBuild? then [FailLeg(BuildLeg, SumMs(chips), chips)]
    else if Passed(chips) then [DoneLeg(BuildLeg, BuildLane, chips)]
    else if ShowsUnreached(item) then [SkipLeg(BuildLeg)]
    else []
  }

  function ReviewStop(item: Item): seq<Leg> {
    var chips := GroupChips(item.labels, ReviewGroup);
    if IsComplete(item) then
      if (if IsNoChangeComplete(item) then AnySucceeded(chips) else HasPr(item) || chips != [])
      then [DoneLeg(ReviewLeg, ReviewLane, chips)] else []
    else if BreakOf(item).AtBuild? then [SkipLeg(ReviewLeg)]
    else if BreakOf(item).AtReview? then [FailLeg(ReviewLeg, SumMs(chips), chips)]
    else if Passed(chips) then [DoneLeg(ReviewLeg, ReviewLane, chips)]
    else if ShowsUnreached(item) then [SkipLeg(ReviewLeg)]
    else []
  }

  function PrStop(item: Item): seq<Leg> {
    var chips := PrChips(item.labels);
    if IsComplete(item) then
      if IsNoChangeComplete(item) then [SkipLeg(NoPrLeg)]
      else if HasPr(item) || chips != [] then [DoneLeg(PrLeg, PrLane, chips)] else []
    else match BreakOf(item)
      case AtBuild => [SkipLeg(PrLeg)]
      case AtReview => [SkipLeg(PrLeg)]
      case AtPr =>
        var failedMs := SumMs(Filter(chips, FailedOnly()));
        [FailLeg(PrLeg, if failedMs.Some? then failedMs else SumMs(chips), chips)]
      case Unbroken =>
        if chips != [] then [DoneLeg(PrLeg, PrLane, chips)]
        else if ShowsUnreached(item) then [SkipLeg(PrLeg)]
        else []
  }

  /** The specification: each stop of the journey decided on its own. */
  function Journey(item: Item): seq<Leg> { BuildStop(item) + ReviewStop(item) + PrStop(item) }

  // ----- shape -----

  function Place(id: LegId): nat {
    match id case BuildLeg => 0 case ReviewLeg => 1 case PrLeg => 2 case NoPrLeg => 2
  }

  ghost predicate InOrder(legs: seq<Leg>) {
    forall i, j :: 0 <= i < j < |legs| ==> Place(legs[i].id) < Place(legs[j].id)
  }

  ghost predicate OnlySkipsAfterFail(legs: seq<Leg>) {
    forall i, j :: 0 <= i < j < |legs| && legs[i].kind.Fail? ==> legs[j].kind.Skip?
  }

  ghost predicate LegOk(item: Item, leg: Leg) {
    && (leg.kind.Fail? ==> IsAbandoned(item) && !IsComplete(item))
    && (leg.kind.Skip? ==> leg.chips == [] && leg.durationMs.None?)
    && (leg.id.NoPrLeg? ==> IsNoChangeComplete(item) && leg.kind.Skip?)
  }

  /** Never empty, in journey order without repetition, and a failure only for abandoned items, with only skips after it. */
  ghost predicate WellShaped(item: Item, legs: seq<Leg>) {
    legs != [] && InOrder(legs) && OnlySkipsAfterFail(legs) && forall leg :: leg in legs ==> LegOk(item, leg)
  }

  lemma StopIds(item: Item)
    ensures |BuildStop(item)| <= 1 && |ReviewStop(item)| <= 1 && |PrStop(item)| <= 1
    ensures BuildStop(item) != [] ==> BuildStop(item)[0].id.BuildLeg?
    ensures ReviewStop(item) != [] ==> ReviewStop(item)[0].id.ReviewLeg?
    ensures PrStop(item) != [] ==> PrStop(item)[0].id.PrLeg? || (PrStop(item)[0].id.NoPrLeg? && IsNoChangeComplete(item))
  {
  }

  lemma StopKinds(item: Item)
    ensures BuildStop(item) != [] ==> LegOk(item, BuildStop(item)[0]) && (BuildStop(item)[0].kind.Fail? <==> BreakOf(item).AtBuild?)
    ensures ReviewStop(item) != [] ==> LegOk(item, ReviewStop(item)[0]) && (ReviewStop(item)[0].kind.Fail? <==> BreakOf(item).AtReview?)
    ensures PrStop(item) != [] ==> LegOk(item, PrStop(item)[0]) && (PrStop(item)[0].kind.Fail? <==> BreakOf(item).AtPr?)
  {
  }

  lemma AfterBreak(item: Item)
    ensures BreakOf(item).AtBuild? ==>
              BuildStop(item) != [] && ReviewStop(item) == [SkipLeg(ReviewLeg)] && PrStop(item) == [SkipLeg(PrLeg)]
    ensures BreakOf(item).AtReview? ==> ReviewStop(item) != [] && PrStop(item) == [SkipLeg(PrLeg)]
    ensures BreakOf(item).AtPr? ==> PrStop(item) != []
  {
  }

  lemma SomeStop(item: Item)
    ensures BuildStop(item) != [] || ReviewStop(item) != [] || PrStop(item) != []
  {
  }

  lemma StopsInOrder(b: seq<Leg>, r: seq<Leg>, p: seq<Leg>)
    requires |b| <= 1 && |r| <= 1 && |p| <= 1
    requires b != [] ==> Place(b[0].id) == 0
    requires r != [] ==> Place(r[0].id) == 1
    requires p != [] ==> Place(p[0].id) == 2
    ensures InOrder(b + r + p)
  {
  }

  lemma StopsAfterFail(b: seq<Leg>, r: seq<Leg>, p: seq<Leg>)
    requires |b| <= 1 && |r| <= 1 && |p| <= 1
    requires b != [] && b[0].kind.Fail? ==> (r != [] ==> r[0].kind.Skip?) && (p != [] ==> p[0].kind.Skip?)
    requires r != [] && r[0].kind.Fail? ==> p != [] ==> p[0].kind.Skip?
    ensures OnlySkipsAfterFail(b + r + p)
  {
  }

  lemma JourneyIsWellShaped(item: Item)
    ensures WellShaped(item, Journey(item))
  {
    var b, r, p := BuildStop(item), ReviewStop(item), PrStop(item);
    StopIds(item);
    StopKinds(item);
    AfterBreak(item);
    SomeStop(item);
    StopsInOrder(b, r, p);
    StopsAfterFail(b, r, p);
    forall leg | leg in Journey(item) ensures LegOk(item, leg) {
      assert leg in b || leg in r || leg in p;
    }
  }

  lemma AnyFailOf(b: seq<Leg>, r: seq<Leg>, p: seq<Leg>)
    requires |b| <= 1 && |r| <= 1 && |p| <= 1
    ensures (exists i :: 0 <= i < |b + r + p| && (b + r + p)[i].kind.Fail?)
      <==> (b != [] && b[0].kind.Fail?) || (r != [] && r[0].kind.Fail?) || (p != [] && p[0].kind.Fail?)
  {
    var legs := b + r + p;
    assert b != [] ==> legs[0] == b[0];
    assert r != [] ==> legs[|b|] == r[0];
    assert p != [] ==> legs[|b| + |r|] == p[0];
  }

  /** There is a failed leg exactly when an abandoned, incomplete item has a failed chip in some group. */
  lemma FailShownIff(item: Item)
    ensures (exists i :: 0 <= i < |Journey(item)| && Journey(item)[i].kind.Fail?)
      <==> IsAbandoned(item) && !IsComplete(item)
           && (AnyFailed(GroupChips(item.labels, BuildGroup)) || AnyFailed(GroupChips(item.labels, ReviewGroup))
               || AnyFailed(PrChips(item.labels)))
  {
    StopIds(item);
    StopKinds(item);
    AfterBreak(item);
    AnyFailOf(BuildStop(item), ReviewStop(item), PrStop(item));
    assert Journey(item) == BuildStop(item) + ReviewStop(item) + PrStop(item);
    assert (exists i :: 0 <= i < |Journey(item)| && Journey(item)[i].kind.Fail?) <==> !BreakOf(item).Unbroken?;
  }

  /**
   * The time of a leg is that of its chips; only a failed change-request leg shows the time of its failed chips, if any
   * of them has one.
   */
  ghost predicate TimeOk(leg: Leg) {
    match leg.kind
    case Skip => leg.durationMs.None?
    case Done => leg.durationMs == SumMs(leg.chips)
    case Fail =>
      var failed := SumMs(Filter(leg.chips, FailedOnly()));
      leg.durationMs == if leg.id.PrLeg? && failed.Some? then failed else SumMs(leg.chips)
  }

  /** The chips of a leg are those of its stop. */
  ghost predicate ChipsOk(item: Item, leg: Leg) {
    leg.kind.Skip? || leg.chips == match leg.id
                                   case BuildLeg => GroupChips(item.labels, BuildGroup)
                                   case ReviewLeg => GroupChips(item.labels, ReviewGroup)
                                   case _ => PrChips(item.labels)
  }

  /** For every item, complete or not, each leg shows the chips of its stop and their time. */
  lemma LegTimes(item: Item)
    ensures forall leg :: leg in Journey(item) ==> TimeOk(leg) && ChipsOk(item, leg)
  {
    var b, r, p := BuildStop(item), ReviewStop(item), PrStop(item);
    BuildLegs(item);
    ReviewLegs(item);
    PrLegs(item);
    forall leg | leg in Journey(item) ensures TimeOk(leg) && ChipsOk(item, leg) {
      assert leg in b || leg in r || leg in p;
    }
  }

  lemma MadeLegsAreTimed(id: LegId, lane: LifecycleLane, chips: seq<Chip>)
    ensures TimeOk(DoneLeg(id, lane, chips)) && TimeOk(SkipLeg(id))
    ensures !id.PrLeg? ==> TimeOk(FailLeg(id, SumMs(chips), chips))
  {
  }

  /** The only legs a stop can have. */
  lemma BuildForms(item: Item)
    ensures var chips := GroupChips(item.labels, BuildGroup);
      BuildStop(item) in {[], [DoneLeg(BuildLeg, BuildLane, chips)], [FailLeg(BuildLeg, SumMs(chips), chips)], [SkipLeg(BuildLeg)]}
  {
  }

  lemma ReviewForms(item: Item)
    ensures var chips := GroupChips(item.labels, ReviewGroup);
      ReviewStop(item) in {[], [DoneLeg(ReviewLeg, ReviewLane, chips)], [FailLeg(ReviewLeg, SumMs(chips), chips)], [SkipLeg(ReviewLeg)]}
  {
  }

  function FailedPr(chips: seq<Chip>): Leg {
    var failedMs := SumMs(Filter(chips, FailedOnly()));
    FailLeg(PrLeg, if failedMs.Some? then failedMs else SumMs(chips), chips)
  }

  lemma PrForms(item: Item)
    ensures var chips := PrChips(item.labels);
      PrStop(item) in {[], [DoneLeg(PrLeg, PrLane, chips)], [FailedPr(chips)], [SkipLeg(PrLeg)], [SkipLeg(NoPrLeg)]}
  {
  }

  lemma FailedPrIsTimed(chips: seq<Chip>)
    ensures TimeOk(FailedPr(chips))
  {
  }

  lemma BuildLegs(item: Item)
    ensures forall leg :: leg in BuildStop(item) ==> TimeOk(leg) && ChipsOk(item, leg)
  {
    BuildForms(item);
    MadeLegsAreTimed(BuildLeg, BuildLane, GroupChips(item.labels, BuildGroup));
  }

  lemma ReviewLegs(item: Item)
    ensures forall leg :: leg in ReviewStop(item) ==> TimeOk(leg) && ChipsOk(item, leg)
  {
    ReviewForms(item);
    MadeLegsAreTimed(ReviewLeg, ReviewLane, GroupChips(item.labels, ReviewGroup));
  }

  lemma PrLegs(item: Item)
    ensures forall leg :: leg in PrStop(item) ==> TimeOk(leg) && ChipsOk(item, leg)
  {
    PrForms(item);
    MadeLegsAreTimed(PrLeg, PrLane, PrChips(item.labels));
    MadeLegsAreTimed(NoPrLeg, PrLane, PrChips(item.labels));
    FailedPrIsTimed(PrChips(item.labels));
  }

  // ----- conservation -----

  function LegChips(legs: seq<Leg>): seq<Chip> {
    if legs == [] then [] else LegChips(Front(legs)) + Last(legs).chips
  }

  function LegsMs(legs: seq<Leg>): Option<int> {
    if legs == [] then None else Add(LegsMs(Front(legs)), Last(legs).durationMs)
  }

  function Grouped(labels: seq<Chip>): seq<Chip> {
    GroupChips(labels, BuildGroup) + GroupChips(labels, ReviewGroup) + PrChips(labels)
  }

  lemma OneLeg(leg: Leg)
    ensures LegChips([leg]) == leg.chips && LegsMs([leg]) == leg.durationMs
  {
    assert Front([leg]) == [];
  }

  lemma {:induction false} LegsConcat(a: seq<Leg>, b: seq<Leg>)
    ensures LegChips(a + b) == LegChips(a) + LegChips(b) && LegsMs(a + b) == Add(LegsMs(a), LegsMs(b))
  {
    if b == [] {
      assert a + b == a;
    } else {
      LegsConcat(a, Front(b));
      assert Front(a + b) == a + Front(b) && Last(a + b) == Last(b);
      Associates(LegChips(a), LegChips(Front(b)), Last(b).chips);
    }
  }

  lemma JourneySums(item: Item)
    ensures LegChips(Journey(item)) == LegChips(BuildStop(item)) + LegChips(ReviewStop(item)) + LegChips(PrStop(item))
    ensures LegsMs(Journey(item)) == Add(Add(LegsMs(BuildStop(item)), LegsMs(ReviewStop(item))), LegsMs(PrStop(item)))
  {
    LegsConcat(BuildStop(item) + ReviewStop(item), PrStop(item));
    LegsConcat(BuildStop(item), ReviewStop(item));
  }

  /** A stop shows all of its chips, or none of them. */
  predicate BuildShown(item: Item) {
    GroupChips(item.labels, BuildGroup) == [] || IsComplete(item) || IsAbandoned(item) || !AnyFailed(GroupChips(item.labels, BuildGroup))
  }

  predicate ReviewShown(item: Item) {
    var chips := GroupChips(item.labels, ReviewGroup);
    || chips == []
    || (if IsComplete(item) then !IsNoChangeComplete(item) || AnySucceeded(chips)
        else !BreakOf(item).AtBuild? && (IsAbandoned(item) || !AnyFailed(chips)))
  }

  predicate PrShown(item: Item) {
    || PrChips(item.labels) == []
    || (if IsComplete(item) then !IsNoChangeComplete(item) else !BreakOf(item).AtBuild? && !BreakOf(item).AtReview?)
  }

  lemma BuildStopChips(item: Item)
    ensures LegChips(BuildStop(item)) == if BuildShown(item) then GroupChips(item.labels, BuildGroup) else []
  {
    if BuildStop(item) != [] { OneLeg(BuildStop(item)[0]); }
  }

  lemma ReviewStopChips(item: Item)
    ensures LegChips(ReviewStop(item)) == if ReviewShown(item) then GroupChips(item.labels, ReviewGroup) else []
  {
    if ReviewStop(item) != [] { OneLeg(ReviewStop(item)[0]); }
  }

  lemma PrStopChips(item: Item)
    ensures LegChips(PrStop(item)) == if PrShown(item) then PrChips(item.labels) else []
  {
    if PrStop(item) != [] { OneLeg(PrStop(item)[0]); }
  }

  /** The legs hold exactly the grouped chips iff every stop shows its own. */
  lemma LegsHoldGroupsIff(item: Item)
    ensures LegChips(Journey(item)) == Grouped(item.labels) <==> BuildShown(item) && ReviewShown(item) && PrShown(item)
  {
    JourneySums(item);
    BuildStopChips(item);
    ReviewStopChips(item);
    PrStopChips(item);
    assert |LegChips(Journey(item))| == |Grouped(item.labels)| <==> BuildShown(item) && ReviewShown(item) && PrShown(item);
  }

  /** So every complete item that is no no-change item, with a change request or without, keeps every grouped chip and its time. */
  lemma CompleteHoldsAll(item: Item)
    requires IsComplete(item) && !IsNoChangeComplete(item)
    ensures LegChips(Journey(item)) == Grouped(item.labels)
    ensures LegsMs(Journey(item)) == SumMs(Grouped(item.labels))
  {
    LegsHoldGroupsIff(item);
    JourneySums(item);
    StopTimes(item);
    GroupedSums(item.labels);
  }

  lemma StopTimes(item: Item)
    requires IsComplete(item)
    ensures LegsMs(BuildStop(item)) == SumMs(LegChips(BuildStop(item)))
    ensures LegsMs(ReviewStop(item)) == SumMs(LegChips(ReviewStop(item)))
    ensures LegsMs(PrStop(item)) == SumMs(LegChips(PrStop(item)))
  {
    if BuildStop(item) != [] { OneLeg(BuildStop(item)[0]); }
    if ReviewStop(item) != [] { OneLeg(ReviewStop(item)[0]); }
    if PrStop(item) != [] { OneLeg(PrStop(item)[0]); }
  }

  lemma GroupedSums(labels: seq<Chip>)
    ensures SumMs(Grouped(labels)) ==
      Add(Add(SumMs(GroupChips(labels, BuildGroup)), SumMs(GroupChips(labels, ReviewGroup))), SumMs(PrChips(labels)))
  {
    SumConcat(GroupChips(labels, BuildGroup) + GroupChips(labels, ReviewGroup), PrChips(labels));
    SumConcat(GroupChips(labels, BuildGroup), GroupChips(labels, ReviewGroup));
  }

  /** The nullable sum of the three group sums is the sum over the concatenated chips. */
  lemma GroupSumsAgree(labels: seq<Chip>)
    ensures SumParts([SumMs(GroupChips(labels, ChecksGroup)), SumMs(GroupChips(labels, MergeGroup)), SumMs(GroupChips(labels, OtherPrGroup))])
      == SumMs(PrChips(labels))
  {
    var a, b, c := GroupChips(labels, ChecksGroup), GroupChips(labels, MergeGroup), GroupChips(labels, OtherPrGroup);
    SumConcat(a + b, c);
    SumConcat(a, b);
    var parts := [SumMs(a), SumMs(b), SumMs(c)];
    assert Front(parts) == [SumMs(a), SumMs(b)];
    assert Front([SumMs(a), SumMs(b)]) == [SumMs(a)];
    assert Front([SumMs(a)]) == [] && SumParts([]) == None;
    assert SumParts([SumMs(a)]) == SumMs(a);
    assert SumParts([SumMs(a), SumMs(b)]) == Add(SumMs(a), SumMs(b));
  }

  lemma GroupOfLane(labels: seq<Chip>)
    ensures GroupChips(labels, BuildGroup) == LaneChips(labels, Some(BuildLane))
    ensures GroupChips(labels, ReviewGroup) == LaneChips(labels, Some(ReviewLane))
  {
    forall chip: Chip ensures (InGroup(BuildGroup)(chip) <==> InLane(Some(BuildLane))(chip))
                              && (InGroup(ReviewGroup)(chip) <==> InLane(Some(ReviewLane))(chip))
    {
      GroupsRefineLanes(chip.phase);
    }
    FilterAgree(labels, InGroup(BuildGroup), InLane(Some(BuildLane)));
    FilterAgree(labels, InGroup(ReviewGroup), InLane(Some(ReviewLane)));
  }

  lemma PrGroupsHoldLane(labels: seq<Chip>)
    ensures multiset(PrChips(labels)) == multiset(LaneChips(labels, Some(PrLane)))
  {
    var checks, merge, other, lane := InGroup(ChecksGroup), InGroup(MergeGroup), InGroup(OtherPrGroup), InLane(Some(PrLane));
    forall chip: Chip ensures lane(chip) == (checks(chip) || merge(chip) || other(chip)) {
      GroupsRefineLanes(chip.phase);
    }
    FilterParts(labels, checks, merge, other, lane);
  }

  /** Together the groups hold exactly the chips that have a lane. */
  lemma GroupedKeepsChips(labels: seq<Chip>)
    ensures multiset(Grouped(labels)) + multiset(LaneChips(labels, None)) == multiset(labels)
  {
    GroupOfLane(labels);
    PrGroupsHoldLane(labels);
    LanesFixAll(labels);
  }

  // ----- the planner -----

  datatype GroupResult = PushedDone | PushedFail | PushedNone

  function GroupResultOf(chips: seq<Chip>, abandoned: bool): GroupResult {
    if chips == [] then PushedNone else if !AnyFailed(chips) then PushedDone else if abandoned then PushedFail else PushedNone
  }

  function LegsPushed(chips: seq<Chip>, id: LegId, lane: LifecycleLane, result: GroupResult): seq<Leg> {
    match result
    case PushedNone => []
    case PushedDone => [DoneLeg(id, lane, chips)]
    case PushedFail => [FailLeg(id, SumMs(chips), chips)]
  }

  /** `pushGroup`: the leg it appends, if any. */
  method PushGroup(legs: seq<Leg>, chips: seq<Chip>, id: LegId, lane: LifecycleLane, abandoned: bool)
    returns (r: seq<Leg>, result: GroupResult)
    ensures result == GroupResultOf(chips, abandoned)
    ensures r == legs + LegsPushed(chips, id, lane, result)
  {
    if |chips| == 0 { return legs, PushedNone; }
    var durationMs := SumLaneDurationMs(chips);
    if AnyFailed(chips) && abandoned {
      return legs + [FailLeg(id, durationMs, chips)], PushedFail;
    }
    if AnyFailed(chips) && !abandoned {
      return legs, PushedNone;
    }
    return legs + [DoneLeg(id, lane, chips)], PushedDone;
  }

  method PlanComplete(item: Item, build: seq<Chip>, review: seq<Chip>, prChips: seq<Chip>) returns (legs: seq<Leg>)
    requires IsComplete(item)
    requires build == GroupChips(item.labels, BuildGroup) && review == GroupChips(item.labels, ReviewGroup)
    requires prChips == PrChips(item.labels)
    ensures legs == Journey(item)
  {
    legs := [];
    if IsNoChangeComplete(item) {
      if |build| > 0 {
        legs := legs + [DoneLeg(BuildLeg, BuildLane, build)];
      } else {
        legs := legs + [Leg(BuildLeg, Done, None, Some(BuildLane), [])];
      }
      if AnySucceeded(review) {
        legs := legs + [DoneLeg(ReviewLeg, ReviewLane, review)];
      }
      legs := legs + [SkipLeg(NoPrLeg)];
      return;
    }
    if HasPr(item) {
      legs := [DoneLeg(BuildLeg, BuildLane, build), DoneLeg(ReviewLeg, ReviewLane, review), DoneLeg(PrLeg, PrLane, prChips)];
      return;
    }
    if |build| > 0 {
      legs := legs + [DoneLeg(BuildLeg, BuildLane, build)];
    }
    if |review| > 0 {
      legs := legs + [DoneLeg(ReviewLeg, ReviewLane, review)];
    }
    if |prChips| > 0 {
      legs := legs + [DoneLeg(PrLeg, PrLane, prChips)];
    }
    if |legs| == 0 {
      legs := legs + [Leg(BuildLeg, Done, None, Some(BuildLane), [])];
    }
  }

  /** What `pushGroup` has appended when it reports no failure. */
  function Pushed(id: LegId, lane: LifecycleLane, chips: seq<Chip>): seq<Leg> {
    if Passed(chips) then [DoneLeg(id, lane, chips)] else []
  }

  function BuildPushed(item: Item): seq<Leg> { Pushed(BuildLeg, BuildLane, GroupChips(item.labels, BuildGroup)) }

  function ReviewPushed(item: Item): seq<Leg> { Pushed(ReviewLeg, ReviewLane, GroupChips(item.labels, ReviewGroup)) }

  function SkipIfNone(legs: seq<Leg>, id: LegId): seq<Leg> { if legs == [] then [SkipLeg(id)] else legs }

  lemma BrokenAtBuild(item: Item)
    requires BreakOf(item).AtBuild?
    ensures var chips := GroupChips(item.labels, BuildGroup);
      Journey(item) == [FailLeg(BuildLeg, SumMs(chips), chips), SkipLeg(ReviewLeg), SkipLeg(PrLeg)]
  {
  }

  lemma BrokenAtReview(item: Item)
    requires BreakOf(item).AtReview?
    ensures var chips := GroupChips(item.labels, ReviewGroup);
      Journey(item) == BuildPushed(item) + [FailLeg(ReviewLeg, SumMs(chips), chips)] + [SkipLeg(PrLeg)]
  {
  }

  lemma BrokenAtPr(item: Item)
    requires BreakOf(item).AtPr?
    ensures Journey(item) == BuildPushed(item) + ReviewPushed(item) + PrStop(item)
  {
  }

  lemma UnbrokenJourney(item: Item)
    requires !IsComplete(item) && BreakOf(item).Unbroken?
    ensures PrChips(item.labels) != [] ==>
              Journey(item) == BuildPushed(item) + ReviewPushed(item) + [DoneLeg(PrLeg, PrLane, PrChips(item.labels))]
    ensures PrChips(item.labels) == [] && (IsAbandoned(item) || BuildPushed(item) + ReviewPushed(item) == []) ==>
              Journey(item) == SkipIfNone(BuildPushed(item), BuildLeg) + SkipIfNone(ReviewPushed(item), ReviewLeg) + [SkipLeg(PrLeg)]
    ensures PrChips(item.labels) == [] && !IsAbandoned(item) && BuildPushed(item) + ReviewPushed(item) != [] ==>
              Journey(item) == BuildPushed(item) + ReviewPushed(item)
  {
  }

  /** What pushing the build group of an incomplete item says about the journey. */
  lemma BuildIsPushed(item: Item, build: seq<Chip>)
    requires !IsComplete(item) && build == GroupChips(item.labels, BuildGroup)
    ensures var result := GroupResultOf(build, IsAbandoned(item));
      var legs := LegsPushed(build, BuildLeg, BuildLane, result);
      if result.PushedFail? then BreakOf(item).AtBuild? && legs == [FailLeg(BuildLeg, SumMs(build), build)]
      else !BreakOf(item).AtBuild? && legs == BuildPushed(item) && (result.PushedNone? <==> legs == [])
  {
  }

  /** Likewise for the review group, once build is done with. */
  lemma ReviewIsPushed(item: Item, review: seq<Chip>)
    requires !IsComplete(item) && !BreakOf(item).AtBuild? && review == GroupChips(item.labels, ReviewGroup)
    ensures var result := GroupResultOf(review, IsAbandoned(item));
      var legs := LegsPushed(review, ReviewLeg, ReviewLane, result);
      if result.PushedFail? then BreakOf(item).AtReview? && legs == [FailLeg(ReviewLeg, SumMs(review), review)]
      else !BreakOf(item).AtReview? && legs == ReviewPushed(item) && (result.PushedNone? <==> legs == [])
  {
  }

  /** The tail of the planner for abandoned items that got no further than review. */
  method AddUnreached(build: seq<Leg>, review: seq<Leg>, buildResult: GroupResult, reviewResult: GroupResult) returns (legs: seq<Leg>)
    requires |build| <= 1 && |review| <= 1
    requires (buildResult.PushedNone? <==> build == []) && (build != [] ==> build[0].id.BuildLeg?)
    requires (reviewResult.PushedNone? <==> review == []) && (review != [] ==> review[0].id.ReviewLeg?)
    ensures legs == SkipIfNone(build, BuildLeg) + SkipIfNone(review, ReviewLeg) + [SkipLeg(PrLeg)]
  {
    legs := build + review;
    if |legs| == 0 {
      return [SkipLeg(BuildLeg), SkipLeg(ReviewLeg), SkipLeg(PrLeg)];
    }
    if buildResult.PushedNone? {
      legs := [SkipLeg(BuildLeg)] + legs;
    }
    if reviewResult.PushedNone? && !(exists i :: 0 <= i < |legs| && legs[i].id == ReviewLeg) {
      legs := legs + [SkipLeg(ReviewLeg)];
    }
    if !(exists i :: 0 <= i < |legs| && legs[i].id == PrLeg) {
      legs := legs + [SkipLeg(PrLeg)];
    }
  }

  /** The planner once build and review are done with, without a failure. */
  method PlanFromPr(item: Item, build: seq<Leg>, review: seq<Leg>, buildResult: GroupResult, reviewResult: GroupResult, prChips: seq<Chip>,
                    prFailDurationMs: Option<int>, prPathDurationMs: Option<int>)
    returns (legs: seq<Leg>)
    requires !IsComplete(item) && !BreakOf(item).AtBuild? && !BreakOf(item).AtReview?
    requires build == BuildPushed(item) && (buildResult.PushedNone? <==> build == [])
    requires review == ReviewPushed(item) && (reviewResult.PushedNone? <==> review == [])
    requires prChips == PrChips(item.labels)
    requires prFailDurationMs == SumMs(Filter(prChips, FailedOnly())) && prPathDurationMs == SumMs(prChips)
    ensures legs == Journey(item)
  {
    legs := build + review;
    if AnyFailed(prChips) && IsAbandoned(item) {
      BrokenAtPr(item);
      legs := legs + [FailLeg(PrLeg, if prFailDurationMs.Some? then prFailDurationMs else prPathDurationMs, prChips)];
      return;
    }
    UnbrokenJourney(item);
    if AnySucceeded(prChips) || |prChips| > 0 {
      legs := legs + [DoneLeg(PrLeg, PrLane, prChips)];
      return;
    }
    if IsAbandoned(item) {
      legs := AddUnreached(build, review, buildResult, reviewResult);
      return;
    }
    if |legs| == 0 {
      return [SkipLeg(BuildLeg), SkipLeg(ReviewLeg), SkipLeg(PrLeg)];
    }
  }

  method PlanFromReview(item: Item, buildLegs: seq<Leg>, buildResult: GroupResult, review: seq<Chip>, prChips: seq<Chip>,
                        prFailDurationMs: Option<int>, prPathDurationMs: Option<int>)
    returns (legs: seq<Leg>)
    requires !IsComplete(item) && !BreakOf(item).AtBuild?
    requires buildLegs == BuildPushed(item) && (buildResult.PushedNone? <==> buildLegs == [])
    requires review == GroupChips(item.labels, ReviewGroup) && prChips == PrChips(item.labels)
    requires prFailDurationMs == SumMs(Filter(prChips, FailedOnly())) && prPathDurationMs == SumMs(prChips)
    ensures legs == Journey(item)
  {
    var reviewLegs, reviewResult := PushGroup([], review, ReviewLeg, ReviewLane, IsAbandoned(item));
    assert reviewLegs == LegsPushed(review, ReviewLeg, ReviewLane, reviewResult);
    ReviewIsPushed(item, review);
    if reviewResult.PushedFail? {
      legs := buildLegs + reviewLegs + [SkipLeg(PrLeg)];
      BrokenAtReview(item);
      return;
    }
    legs := PlanFromPr(item, buildLegs, reviewLegs, buildResult, reviewResult, prChips, prFailDurationMs, prPathDurationMs);
  }

  method PlanIncomplete(item: Item, build: seq<Chip>, review: seq<Chip>, prChips: seq<Chip>,
                        prFailDurationMs: Option<int>, prPathDurationMs: Option<int>)
    returns (legs: seq<Leg>)
    requires !IsComplete(item)
    requires build == GroupChips(item.labels, BuildGroup) && review == GroupChips(item.labels, ReviewGroup)
    requires prChips == PrChips(item.labels)
    requires prFailDurationMs == SumMs(Filter(prChips, FailedOnly())) && prPathDurationMs == SumMs(prChips)
    ensures legs == Journey(item)
  {
    var buildLegs, buildResult := PushGroup([], build, BuildLeg, BuildLane, IsAbandoned(item));
    assert buildLegs == LegsPushed(build, BuildLeg, BuildLane, buildResult);
    BuildIsPushed(item, build);
    if buildResult.PushedFail? {
      legs := buildLegs + [SkipLeg(ReviewLeg), SkipLeg(PrLeg)];
      BrokenAtBuild(item);
      assert legs == [FailLeg(BuildLeg, SumMs(build), build), SkipLeg(ReviewLeg), SkipLeg(PrLeg)];
      return;
    }
    legs := PlanFromReview(item, buildLegs, buildResult, review, prChips, prFailDurationMs, prPathDurationMs);
  }

  method PlanArchiveLegs(item: Item) returns (legs: seq<Leg>)
    ensures legs == Journey(item)
  {
    var buckets := CollectGroups(item.labels);
    var prChips := buckets[ChecksGroup] + buckets[MergeGroup] + buckets[OtherPrGroup];
    if IsComplete(item) {
      legs := PlanComplete(item, buckets[BuildGroup], buckets[ReviewGroup], prChips);
      return;
    }
    var prFailDurationMs := SumLaneDurationMs(Filter(prChips, FailedOnly()));
    var checksMs := SumLaneDurationMs(buckets[ChecksGroup]);
    var mergeMs := SumLaneDurationMs(buckets[MergeGroup]);
    var otherMs := SumLaneDurationMs(buckets[OtherPrGroup]);
    var prPathDurationMs := SumNullableMs([checksMs, mergeMs, otherMs]);
    GroupSumsAgree(item.labels);
    legs := PlanIncomplete(item, buckets[BuildGroup], buckets[ReviewGroup], prChips, prFailDurationMs, prPathDurationMs);
  }
}
