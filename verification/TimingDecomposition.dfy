/** Whole-task, per-lane and per-step numbers decompose, because measuring commutes with selecting steps. */
module TimingDecomposition {
  import opened Options
  import opened Sequences
  import opened PipelineLanes
  import opened Strings
  import opened TimingStatistics

  /** A selection of attempts that looks only at the step. */
  function AtSteps(q: string -> bool): Attempt -> bool { (a: Attempt) => q(a.step) }

  function DetailsAt(q: string -> bool): Detail -> bool { (d: Detail) => q(d.attempt.step) }

  lemma {:induction false} DetailsCommute(ordered: seq<Attempt>, q: string -> bool)
    ensures DetailsOf(Filter(ordered, AtSteps(q))) == Filter(DetailsOf(ordered), DetailsAt(q))
  {
    if ordered != [] {
      var front, a := Front(ordered), Last(ordered);
      DetailsCommute(front, q);
      var detail := DetailOf(a, |Filter(front, EligibleIn(a.step))| > 0);
      FilterSnoc(DetailsOf(front), detail, DetailsAt(q));
      if q(a.step) {
        var kept := Filter(front, AtSteps(q));
        FilterTwice(front, AtSteps(q), EligibleIn(a.step), EligibleIn(a.step));
        assert Front(kept + [a]) == kept;
      }
    }
  }

  /** Measuring the attempts at some steps gives exactly the details the whole measurement has for them. */
  lemma {:induction false} MeasureCommutes(attempts: seq<Attempt>, q: string -> bool)
    ensures Measure(Filter(attempts, AtSteps(q))) == Summarise(Filter(Measure(attempts).details, DetailsAt(q)))
  {
    SortFilter(attempts, QueuedAt(), AtSteps(q));
    DetailsCommute(StableSort(attempts, QueuedAt()), q);
  }

  // ----- totals over a partition -----

  /** The sum over keys of the totals of the parts. */
  function TotalOver<T, K(==)>(ks: seq<K>, xs: seq<T>, key: T -> K, f: T -> int): int {
    if ks == [] then 0 else TotalOver(Front(ks), xs, key, f) + Total(Filter(xs, KeyIs(key, Last(ks))), f)
  }

  lemma {:induction false} TotalOverSnoc<T, K>(ks: seq<K>, xs: seq<T>, x: T, key: T -> K, f: T -> int)
    requires Distinct(ks)
    ensures TotalOver(ks, xs + [x], key, f) == TotalOver(ks, xs, key, f) + if key(x) in ks then f(x) else 0
  {
    if ks != [] {
      TotalOverSnoc(Front(ks), xs, x, key, f);
      var p := KeyIs(key, Last(ks));
      FilterSnoc(xs, x, p);
      TotalSnoc(Filter(xs, p), x, f);
      assert ks == Front(ks) + [Last(ks)];
      assert Last(ks) !in Front(ks);
    }
  }

  lemma {:induction false} TotalOverNothing<T, K>(ks: seq<K>, key: T -> K, f: T -> int)
    ensures TotalOver(ks, [], key, f) == 0
  {
    if ks != [] { TotalOverNothing(Front(ks), key, f); }
  }

  /** Totals add up over any list of keys that covers every element once. */
  lemma {:induction false} PartitionTotal<T, K>(ks: seq<K>, xs: seq<T>, key: T -> K, f: T -> int)
    requires Distinct(ks) && forall i :: 0 <= i < |xs| ==> key(xs[i]) in ks
    ensures TotalOver(ks, xs, key, f) == Total(xs, f)
  {
    if xs == [] {
      TotalOverNothing(ks, key, f);
    } else {
      PartitionTotal(ks, Front(xs), key, f);
      TotalOverSnoc(ks, Front(xs), Last(xs), key, f);
      assert xs == Front(xs) + [Last(xs)];
    }
  }

  // ----- steps -----

  function StepIs(step: string): string -> bool { (s: string) => s == step }

  function StepOf(): Detail -> string { (d: Detail) => d.attempt.step }

  /** What `stepStatistics` measures for one task and one step. */
  function MeasureStep(attempts: seq<Attempt>, step: string): Measurement {
    Measure(Filter(attempts, AtSteps(StepIs(step))))
  }

  function SumSteps(steps: seq<string>, attempts: seq<Attempt>, f: Detail -> int): int {
    if steps == [] then 0
    else SumSteps(Front(steps), attempts, f) + Total(MeasureStep(attempts, Last(steps)).details, f)
  }

  lemma {:induction false} SumStepsIsTotalOver(steps: seq<string>, attempts: seq<Attempt>, f: Detail -> int)
    ensures SumSteps(steps, attempts, f) == TotalOver(steps, Measure(attempts).details, StepOf(), f)
  {
    if steps != [] {
      SumStepsIsTotalOver(Front(steps), attempts, f);
      MeasureCommutes(attempts, StepIs(Last(steps)));
      FilterAgree(Measure(attempts).details, DetailsAt(StepIs(Last(steps))), KeyIs(StepOf(), Last(steps)));
    }
  }

  lemma {:induction false} DetailsAttempts(ordered: seq<Attempt>)
    ensures forall i :: 0 <= i < |ordered| ==> DetailsOf(ordered)[i].attempt == ordered[i]
  {
    if ordered != [] { DetailsAttempts(Front(ordered)); }
  }

  lemma MeasuredAttempts(attempts: seq<Attempt>)
    ensures forall d :: d in Measure(attempts).details ==> d.attempt in attempts
  {
    var ordered := StableSort(attempts, QueuedAt());
    SortIsSorted(attempts, QueuedAt());
    DetailsAttempts(ordered);
    forall d | d in DetailsOf(ordered) ensures d.attempt in attempts {
      var i :| 0 <= i < |ordered| && DetailsOf(ordered)[i] == d;
      assert ordered[i] in multiset(ordered);
    }
  }

  ghost predicate CoversSteps(steps: seq<string>, attempts: seq<Attempt>) {
    Distinct(steps) && forall a :: a in attempts ==> a.step in steps
  }

  /** Every total of a task is the sum of the per-step totals, whatever list of steps covers it. */
  lemma StepsDecompose(attempts: seq<Attempt>, steps: seq<string>)
    requires CoversSteps(steps, attempts)
    ensures var m := Measure(attempts);
      && m.recordedMs == SumSteps(steps, attempts, Recorded())
      && m.timed == SumSteps(steps, attempts, Timed())
      && m.missing == SumSteps(steps, attempts, Missing())
      && m.repeats == SumSteps(steps, attempts, Repeats())
      && m.repeatMs == SumSteps(steps, attempts, RepeatMs())
      && m.queueMs == SumSteps(steps, attempts, QueueMs())
      && m.sessionWaitMs == SumSteps(steps, attempts, WaitMs())
  {
    forall f: Detail -> int ensures SumSteps(steps, attempts, f) == Total(Measure(attempts).details, f) {
      TotalBySteps(attempts, steps, f);
    }
  }

  lemma TotalBySteps(attempts: seq<Attempt>, steps: seq<string>, f: Detail -> int)
    requires CoversSteps(steps, attempts)
    ensures SumSteps(steps, attempts, f) == Total(Measure(attempts).details, f)
  {
    var details := Measure(attempts).details;
    SumStepsIsTotalOver(steps, attempts, f);
    MeasuredAttempts(attempts);
    assert forall i :: 0 <= i < |details| ==> details[i] in details;
    PartitionTotal(steps, details, StepOf(), f);
  }

  // ----- repeats -----

  function Max0(n: int): nat { if n < 0 then 0 else n }

  lemma {:induction false} RepeatsInOrder(ordered: seq<Attempt>, step: string)
    ensures Total(Filter(DetailsOf(ordered), DetailsAt(StepIs(step))), Repeats())
            == Max0(|Filter(ordered, EligibleIn(step))| - 1)
  {
    if ordered != [] {
      var front, a := Front(ordered), Last(ordered);
      RepeatsInOrder(front, step);
      var detail := DetailOf(a, |Filter(front, EligibleIn(a.step))| > 0);
      FilterSnoc(DetailsOf(front), detail, DetailsAt(StepIs(step)));
      TotalSnoc(Filter(DetailsOf(front), DetailsAt(StepIs(step))), detail, Repeats());
    }
  }

  /** A step repeats once for every eligible attempt after its first, in whatever order the attempts come. */
  lemma RepeatsPerStep(attempts: seq<Attempt>, step: string)
    ensures MeasureStep(attempts, step).repeats == Max0(|Filter(attempts, EligibleIn(step))| - 1)
  {
    var ordered := StableSort(attempts, QueuedAt());
    MeasureCommutes(attempts, StepIs(step));
    RepeatsInOrder(ordered, step);
    SortFilter(attempts, QueuedAt(), EligibleIn(step));
    SortIsSorted(Filter(attempts, EligibleIn(step)), QueuedAt());
    assert |multiset(StableSort(Filter(attempts, EligibleIn(step)), QueuedAt()))| == |multiset(Filter(attempts, EligibleIn(step)))|;
  }

  function ExtraAttempts(attempts: seq<Attempt>, steps: seq<string>): nat {
    if steps == [] then 0
    else ExtraAttempts(attempts, Front(steps)) + Max0(|Filter(attempts, EligibleIn(Last(steps)))| - 1)
  }

  /** The whole task repeats once for every eligible attempt beyond the first of its step. */
  lemma RepeatsCountExtraAttempts(attempts: seq<Attempt>, steps: seq<string>)
    requires CoversSteps(steps, attempts)
    ensures Measure(attempts).repeats == ExtraAttempts(attempts, steps)
  {
    TotalBySteps(attempts, steps, Repeats());
    SumStepsOfRepeats(attempts, steps);
  }

  lemma {:induction false} SumStepsOfRepeats(attempts: seq<Attempt>, steps: seq<string>)
    ensures SumSteps(steps, attempts, Repeats()) == ExtraAttempts(attempts, steps)
  {
    if steps != [] {
      SumStepsOfRepeats(attempts, Front(steps));
      RepeatsPerStep(attempts, Last(steps));
    }
  }

  // ----- lanes -----

  type LaneTable = string -> Option<LifecycleLane>

  /** The lane table of the page. The decomposition below holds for any table `laneOf`. */
  function StepLanes(): LaneTable { (step: string) => LifecycleLaneForState(ToUpper(step)) }

  function InLane(laneOf: LaneTable, lane: Option<LifecycleLane>): string -> bool {
    (step: string) => laneOf(step) == lane
  }

  /** What `projectTimingTask` measures for one lane; `None` stands for the steps outside every lane. */
  function MeasureLane(attempts: seq<Attempt>, laneOf: LaneTable, lane: Option<LifecycleLane>): Measurement {
    Measure(Filter(attempts, AtSteps(InLane(laneOf, lane))))
  }

  function KeyIsLane(laneOf: LaneTable, lane: Option<LifecycleLane>): Detail -> bool {
    (d: Detail) => laneOf(d.attempt.step) == lane
  }

  /** Every detail lies in exactly one of the four parts. */
  lemma {:induction false} FourParts(details: seq<Detail>, laneOf: LaneTable, f: Detail -> int)
    ensures Total(details, f)
      == Total(Filter(details, KeyIsLane(laneOf, Some(BuildLane))), f) + Total(Filter(details, KeyIsLane(laneOf, Some(ReviewLane))), f)
         + Total(Filter(details, KeyIsLane(laneOf, Some(PrLane))), f) + Total(Filter(details, KeyIsLane(laneOf, None)), f)
  {
    if details != [] {
      FourParts(Front(details), laneOf, f);
      LaneTotalSnoc(details, laneOf, Some(BuildLane), f);
      LaneTotalSnoc(details, laneOf, Some(ReviewLane), f);
      LaneTotalSnoc(details, laneOf, Some(PrLane), f);
      LaneTotalSnoc(details, laneOf, None, f);
      match laneOf(Last(details).attempt.step)
      case None =>
      case Some(BuildLane) =>
      case Some(ReviewLane) =>
      case Some(PrLane) =>
    }
  }

  lemma LaneTotalSnoc(details: seq<Detail>, laneOf: LaneTable, lane: Option<LifecycleLane>, f: Detail -> int)
    requires details != []
    ensures Total(Filter(details, KeyIsLane(laneOf, lane)), f) ==
      Total(Filter(Front(details), KeyIsLane(laneOf, lane)), f) + if laneOf(Last(details).attempt.step) == lane then f(Last(details)) else 0
  {
    TotalSnoc(Filter(Front(details), KeyIsLane(laneOf, lane)), Last(details), f);
  }

  lemma LaneDetails(attempts: seq<Attempt>, laneOf: LaneTable, lane: Option<LifecycleLane>)
    ensures MeasureLane(attempts, laneOf, lane).details == Filter(Measure(attempts).details, KeyIsLane(laneOf, lane))
  {
    MeasureCommutes(attempts, InLane(laneOf, lane));
    FilterAgree(Measure(attempts).details, DetailsAt(InLane(laneOf, lane)), KeyIsLane(laneOf, lane));
  }

  /** One total of a whole task and of its four parts. */
  ghost predicate Adds(attempts: seq<Attempt>, laneOf: LaneTable, f: Detail -> int) {
    Total(Measure(attempts).details, f)
      == Total(MeasureLane(attempts, laneOf, Some(BuildLane)).details, f) + Total(MeasureLane(attempts, laneOf, Some(ReviewLane)).details, f)
         + Total(MeasureLane(attempts, laneOf, Some(PrLane)).details, f) + Total(MeasureLane(attempts, laneOf, None).details, f)
  }

  lemma TotalByLanes(attempts: seq<Attempt>, laneOf: LaneTable, f: Detail -> int)
    ensures Adds(attempts, laneOf, f)
  {
    LaneDetails(attempts, laneOf, Some(BuildLane));
    LaneDetails(attempts, laneOf, Some(ReviewLane));
    LaneDetails(attempts, laneOf, Some(PrLane));
    LaneDetails(attempts, laneOf, None);
    FourParts(Measure(attempts).details, laneOf, f);
  }

  /** The parts of a task: its three lanes and whatever lies outside them. */
  ghost predicate SumsTo(whole: Measurement, build: Measurement, review: Measurement, pr: Measurement, outside: Measurement) {
    && whole.recordedMs == build.recordedMs + review.recordedMs + pr.recordedMs + outside.recordedMs
    && whole.timed == build.timed + review.timed + pr.timed + outside.timed
    && whole.missing == build.missing + review.missing + pr.missing + outside.missing
    && whole.repeats == build.repeats + review.repeats + pr.repeats + outside.repeats
    && whole.repeatMs == build.repeatMs + review.repeatMs + pr.repeatMs + outside.repeatMs
    && whole.queueMs == build.queueMs + review.queueMs + pr.queueMs + outside.queueMs
    && whole.sessionWaitMs == build.sessionWaitMs + review.sessionWaitMs + pr.sessionWaitMs + outside.sessionWaitMs
  }

  /** Every total of a task is the sum over its lanes and the steps outside them. */
  lemma LanesDecompose(attempts: seq<Attempt>, laneOf: LaneTable)
    ensures SumsTo(Measure(attempts), MeasureLane(attempts, laneOf, Some(BuildLane)), MeasureLane(attempts, laneOf, Some(ReviewLane)),
                   MeasureLane(attempts, laneOf, Some(PrLane)), MeasureLane(attempts, laneOf, None))
  {
    TotalByLanes(attempts, laneOf, Recorded());
    TotalByLanes(attempts, laneOf, Timed());
    TotalByLanes(attempts, laneOf, Missing());
    TotalByLanes(attempts, laneOf, Repeats());
    TotalByLanes(attempts, laneOf, RepeatMs());
    TotalByLanes(attempts, laneOf, QueueMs());
    TotalByLanes(attempts, laneOf, WaitMs());
  }

  /** When every step has a lane, the part outside the lanes measures nothing. */
  lemma NothingOutsideLanes(attempts: seq<Attempt>, laneOf: LaneTable)
    requires forall a :: a in attempts ==> laneOf(a.step).Some?
    ensures MeasureLane(attempts, laneOf, None) == Measure([])
  {
    var outside := Filter(attempts, AtSteps(InLane(laneOf, None)));
    FilterMembers(attempts, AtSteps(InLane(laneOf, None)));
    if outside != [] {
      assert outside[0] in outside;
    }
  }

  /**
   * A task as the page shows it: its own numbers and those of its three lanes. What the lanes leave out is exactly
   * what its steps outside every lane measure.
   */
  method ProjectTimingTask(attempts: seq<Attempt>) returns (whole: Measurement, build: Measurement, review: Measurement, pr: Measurement)
    ensures whole == Measure(attempts)
    ensures build == MeasureLane(attempts, StepLanes(), Some(BuildLane))
    ensures review == MeasureLane(attempts, StepLanes(), Some(ReviewLane))
    ensures pr == MeasureLane(attempts, StepLanes(), Some(PrLane))
    ensures SumsTo(whole, build, review, pr, MeasureLane(attempts, StepLanes(), None))
  {
    whole := MeasureAttempts(attempts);
    build := MeasureAttempts(Filter(attempts, AtSteps(InLane(StepLanes(), Some(BuildLane)))));
    review := MeasureAttempts(Filter(attempts, AtSteps(InLane(StepLanes(), Some(ReviewLane)))));
    pr := MeasureAttempts(Filter(attempts, AtSteps(InLane(StepLanes(), Some(PrLane)))));
    LanesDecompose(attempts, StepLanes());
  }

  lemma {:induction false} CountsNonNegative(details: seq<Detail>)
    ensures Total(details, Timed()) >= 0 && Total(details, Missing()) >= 0
    ensures Total(details, Timed()) == 0 ==> Total(details, Recorded()) == 0
  {
    if details != [] { CountsNonNegative(Front(details)); }
  }

  /** Having an execution time means that some attempt is timed and none misses its duration. */
  ghost predicate Coherent(m: Measurement) {
    && m.timed >= 0 && m.missing >= 0 && (m.timed == 0 ==> m.recordedMs == 0)
    && m.executionMs == if m.timed > 0 && m.missing == 0 then Some(m.recordedMs) else None
  }

  lemma MeasureIsCoherent(attempts: seq<Attempt>)
    ensures Coherent(Measure(attempts))
  {
    CountsNonNegative(Measure(attempts).details);
  }

  /** The whole has an execution time iff no part misses a duration and some part has one; it is the sum of the parts'. */
  ghost predicate ExecutionAdds(whole: Measurement, build: Measurement, review: Measurement, pr: Measurement, outside: Measurement) {
    && (whole.executionMs.Some? <==>
          && build.missing == 0 && review.missing == 0 && pr.missing == 0 && outside.missing == 0
          && (build.executionMs.Some? || review.executionMs.Some? || pr.executionMs.Some? || outside.executionMs.Some?))
    && (whole.executionMs.Some? ==>
          whole.executionMs.value == OrZero(build.executionMs) + OrZero(review.executionMs)
                                     + OrZero(pr.executionMs) + OrZero(outside.executionMs))
  }

  lemma ExecutionOfParts(whole: Measurement, build: Measurement, review: Measurement, pr: Measurement, outside: Measurement)
    requires SumsTo(whole, build, review, pr, outside)
    requires Coherent(whole) && Coherent(build) && Coherent(review) && Coherent(pr) && Coherent(outside)
    ensures ExecutionAdds(whole, build, review, pr, outside)
  {
    if whole.executionMs.Some? {
      assert build.timed > 0 || review.timed > 0 || pr.timed > 0 || outside.timed > 0;
    }
  }

  lemma ExecutionDecomposes(attempts: seq<Attempt>, laneOf: LaneTable)
    ensures ExecutionAdds(Measure(attempts), MeasureLane(attempts, laneOf, Some(BuildLane)), MeasureLane(attempts, laneOf, Some(ReviewLane)),
                          MeasureLane(attempts, laneOf, Some(PrLane)), MeasureLane(attempts, laneOf, None))
  {
    LanesDecompose(attempts, laneOf);
    MeasureIsCoherent(attempts);
    MeasureIsCoherent(Filter(attempts, AtSteps(InLane(laneOf, Some(BuildLane)))));
    MeasureIsCoherent(Filter(attempts, AtSteps(InLane(laneOf, Some(ReviewLane)))));
    MeasureIsCoherent(Filter(attempts, AtSteps(InLane(laneOf, Some(PrLane)))));
    MeasureIsCoherent(Filter(attempts, AtSteps(InLane(laneOf, None))));
    ExecutionOfParts(Measure(attempts), MeasureLane(attempts, laneOf, Some(BuildLane)), MeasureLane(attempts, laneOf, Some(ReviewLane)),
                     MeasureLane(attempts, laneOf, Some(PrLane)), MeasureLane(attempts, laneOf, None));
  }

  // ----- statistics over several tasks -----

  /** One cell of the step table: a per-step total summed over the tasks. */
  function StepTotal(tasks: seq<seq<Attempt>>, step: string, f: Detail -> int): int {
    if tasks == [] then 0 else StepTotal(Front(tasks), step, f) + Total(MeasureStep(Last(tasks), step).details, f)
  }

  function Durations(): Detail -> int { (d: Detail) => OrZero(d.duration) }

  function AddSteps(names: seq<string>, attempts: seq<Attempt>): seq<string> {
    if attempts == [] then names
    else
      var so := AddSteps(names, Front(attempts));
      if Last(attempts).step in so then so else so + [Last(attempts).step]
  }

  /** The set of step names in order of first appearance. */
  function StepNames(tasks: seq<seq<Attempt>>): seq<string> {
    if tasks == [] then [] else AddSteps(StepNames(Front(tasks)), Last(tasks))
  }

  lemma {:induction false} AddStepsCovers(names: seq<string>, attempts: seq<Attempt>)
    requires Distinct(names)
    ensures CoversSteps(AddSteps(names, attempts), attempts)
    ensures forall name :: name in names ==> name in AddSteps(names, attempts)
  {
    if attempts != [] {
      AddStepsCovers(names, Front(attempts));
      assert attempts == Front(attempts) + [Last(attempts)];
    }
  }

  lemma {:induction false} StepNamesCover(tasks: seq<seq<Attempt>>)
    ensures Distinct(StepNames(tasks))
    ensures forall t :: t in tasks ==> CoversSteps(StepNames(tasks), t)
  {
    if tasks != [] {
      StepNamesCover(Front(tasks));
      AddStepsCovers(StepNames(Front(tasks)), Last(tasks));
      assert tasks == Front(tasks) + [Last(tasks)];
    }
  }

  function SumRows(steps: seq<string>, tasks: seq<seq<Attempt>>, f: Detail -> int): int {
    if steps == [] then 0 else SumRows(Front(steps), tasks, f) + StepTotal(tasks, Last(steps), f)
  }

  function SumTasks(tasks: seq<seq<Attempt>>, f: Detail -> int): int {
    if tasks == [] then 0 else SumTasks(Front(tasks), f) + Total(Measure(Last(tasks)).details, f)
  }

  lemma {:induction false} SumRowsSnoc(steps: seq<string>, tasks: seq<seq<Attempt>>, f: Detail -> int)
    requires tasks != []
    ensures SumRows(steps, tasks, f) == SumRows(steps, Front(tasks), f) + SumSteps(steps, Last(tasks), f)
  {
    if steps != [] { SumRowsSnoc(Front(steps), tasks, f); }
  }

  lemma {:induction false} SumRowsEmpty(steps: seq<string>, f: Detail -> int)
    ensures SumRows(steps, [], f) == 0
  {
    if steps != [] { SumRowsEmpty(Front(steps), f); }
  }

  lemma RowsOfOneMoreTask(steps: seq<string>, tasks: seq<seq<Attempt>>, f: Detail -> int)
    requires tasks != [] && CoversSteps(steps, Last(tasks))
    requires SumRows(steps, Front(tasks), f) == SumTasks(Front(tasks), f)
    ensures SumRows(steps, tasks, f) == SumTasks(tasks, f)
  {
    SumRowsSnoc(steps, tasks, f);
    TotalBySteps(Last(tasks), steps, f);
  }

  /** Summing rows over steps or measurements over tasks gives the same number. */
  lemma {:induction false} RowsSumToTasks(steps: seq<string>, tasks: seq<seq<Attempt>>, f: Detail -> int)
    requires forall i :: 0 <= i < |tasks| ==> CoversSteps(steps, tasks[i])
    ensures SumRows(steps, tasks, f) == SumTasks(tasks, f)
  {
    if tasks == [] {
      SumRowsEmpty(steps, f);
    } else {
      RowsSumToTasks(steps, Front(tasks), f);
      RowsOfOneMoreTask(steps, tasks, f);
    }
  }

  lemma {:induction false} DurationsAreRecorded(ordered: seq<Attempt>)
    ensures Total(DetailsOf(ordered), Durations()) == Total(DetailsOf(ordered), Recorded())
  {
    if ordered != [] {
      DurationsAreRecorded(Front(ordered));
      var details := DetailsOf(ordered);
      assert Front(details) == DetailsOf(Front(ordered));
    }
  }

  function RepeatsOf(): Measurement -> int { (m: Measurement) => m.repeats }

  function RepeatMsOf(): Measurement -> int { (m: Measurement) => m.repeatMs }

  function MissingOf(): Measurement -> int { (m: Measurement) => m.missing }

  function RecordedOf(): Measurement -> int { (m: Measurement) => m.recordedMs }

  function TasksTotal(tasks: seq<seq<Attempt>>, of: Measurement -> int): int {
    if tasks == [] then 0 else TasksTotal(Front(tasks), of) + of(Measure(Last(tasks)))
  }

  /** One cell of the lane table: a per-lane total summed over the tasks. */
  function LaneTotal(tasks: seq<seq<Attempt>>, laneOf: LaneTable, lane: Option<LifecycleLane>, of: Measurement -> int): int {
    if tasks == [] then 0 else LaneTotal(Front(tasks), laneOf, lane, of) + of(MeasureLane(Last(tasks), laneOf, lane))
  }

  function SumLanes(tasks: seq<seq<Attempt>>, laneOf: LaneTable, of: Measurement -> int): int {
    LaneTotal(tasks, laneOf, Some(BuildLane), of) + LaneTotal(tasks, laneOf, Some(ReviewLane), of) + LaneTotal(tasks, laneOf, Some(PrLane), of)
    + LaneTotal(tasks, laneOf, None, of)
  }

  /** One number of a whole task is the sum over its parts. */
  ghost predicate PartsAdd(attempts: seq<Attempt>, laneOf: LaneTable, of: Measurement -> int) {
    of(Measure(attempts)) ==
      of(MeasureLane(attempts, laneOf, Some(BuildLane))) + of(MeasureLane(attempts, laneOf, Some(ReviewLane)))
      + of(MeasureLane(attempts, laneOf, Some(PrLane))) + of(MeasureLane(attempts, laneOf, None))
  }

  lemma OneMoreTask(tasks: seq<seq<Attempt>>, laneOf: LaneTable, of: Measurement -> int)
    requires tasks != [] && PartsAdd(Last(tasks), laneOf, of)
    ensures SumLanes(tasks, laneOf, of) == SumLanes(Front(tasks), laneOf, of) + of(Measure(Last(tasks)))
  {
  }

  lemma {:induction false} LanesOfTasksAdd(tasks: seq<seq<Attempt>>, laneOf: LaneTable, of: Measurement -> int)
    requires forall attempts :: PartsAdd(attempts, laneOf, of)
    ensures SumLanes(tasks, laneOf, of) == TasksTotal(tasks, of)
  {
    if tasks != [] {
      LanesOfTasksAdd(Front(tasks), laneOf, of);
      OneMoreTask(tasks, laneOf, of);
    }
  }

  /** Summed over the lanes, and the steps outside them, the repeat columns of the lane table are those of the tasks. */
  lemma {:induction false} LaneTableIsComplete(tasks: seq<seq<Attempt>>, laneOf: LaneTable)
    ensures SumLanes(tasks, laneOf, RepeatsOf()) == TasksTotal(tasks, RepeatsOf())
    ensures SumLanes(tasks, laneOf, RepeatMsOf()) == TasksTotal(tasks, RepeatMsOf())
  {
    forall attempts ensures PartsAdd(attempts, laneOf, RepeatsOf()) && PartsAdd(attempts, laneOf, RepeatMsOf()) {
      LanesDecompose(attempts, laneOf);
    }
    LanesOfTasksAdd(tasks, laneOf, RepeatsOf());
    LanesOfTasksAdd(tasks, laneOf, RepeatMsOf());
  }

  /**
   * The step table accounts for everything: its repeat, repeat-time, missing and attempt-time columns
   * add up to the sums of the whole-task measurements.
   */
  lemma StepTableIsComplete(tasks: seq<seq<Attempt>>)
    ensures var steps := StepNames(tasks);
      && SumRows(steps, tasks, Repeats()) == TasksTotal(tasks, RepeatsOf())
      && SumRows(steps, tasks, RepeatMs()) == TasksTotal(tasks, RepeatMsOf())
      && SumRows(steps, tasks, Missing()) == TasksTotal(tasks, MissingOf())
      && SumRows(steps, tasks, Durations()) == TasksTotal(tasks, RecordedOf())
  {
    var steps := StepNames(tasks);
    StepNamesCover(tasks);
    RowsSumToTasks(steps, tasks, Repeats());
    RowsSumToTasks(steps, tasks, RepeatMs());
    RowsSumToTasks(steps, tasks, Missing());
    RowsSumToTasks(steps, tasks, Durations());
    SumTasksFields(tasks);
  }

  lemma {:induction false} SumTasksFields(tasks: seq<seq<Attempt>>)
    ensures SumTasks(tasks, Repeats()) == TasksTotal(tasks, RepeatsOf())
    ensures SumTasks(tasks, RepeatMs()) == TasksTotal(tasks, RepeatMsOf())
    ensures SumTasks(tasks, Missing()) == TasksTotal(tasks, MissingOf())
    ensures SumTasks(tasks, Durations()) == TasksTotal(tasks, RecordedOf())
  {
    if tasks != [] {
      SumTasksFields(Front(tasks));
      DurationsAreRecorded(StableSort(Last(tasks), QueuedAt()));
    }
  }
}
