/** What the measured times are, in the attempts' own times: elapsed, queued and waited, in whatever order they come. */
module TimingTimes {
  import opened Options
  import opened Sequences
  import opened TimingStatistics
  import opened TimingDecomposition

  /** From start to finish, when both are known and in order. */
  predicate Ran(a: Attempt) { a.startedAt.Some? && a.finishedAt.Some? && a.startedAt.value <= a.finishedAt.value }

  /** An attempt leaves the queue when it starts, or, if it never did, when it finishes. */
  predicate LeftQueueAt(a: Attempt, at: int) {
    a.startedAt == Some(at) || (a.startedAt.None? && a.finishedAt == Some(at))
  }

  /** The detail of an attempt that was queued, started and finished in that order. */
  lemma TimesOfAnAttempt(a: Attempt, seenBefore: bool, q: int, s: int, f: int)
    requires a.queuedAt == q && a.startedAt == Some(s) && a.finishedAt == Some(f) && q <= s <= f
    ensures var d := DetailOf(a, seenBefore);
      && d.duration == Some(f - s) && d.queue == Some(s - q) && d.duration.value + d.queue.value == f - q
      && 0 <= d.sessionWait <= d.duration.value
      && (a.sessionWaitMs <= 0 ==> d.sessionWait == 0)
      && (0 <= a.sessionWaitMs <= f - s ==> d.sessionWait == a.sessionWaitMs)
      && (f - s <= a.sessionWaitMs ==> d.sessionWait == f - s)
  {
  }

  /** Every detail: a duration exactly if it ran, a queue time exactly if it left the queue no earlier than it entered. */
  lemma DetailTimes(a: Attempt, seenBefore: bool)
    ensures var d := DetailOf(a, seenBefore);
      && (d.duration.Some? <==> Ran(a)) && (Ran(a) ==> a.finishedAt.value == a.startedAt.value + d.duration.value)
      && (d.queue.Some? <==> exists at :: LeftQueueAt(a, at) && a.queuedAt <= at)
      && (d.queue.Some? ==> LeftQueueAt(a, a.queuedAt + d.queue.value))
      && (!Ran(a) ==> d.sessionWait == 0)
  {
    if a.startedAt.Some? {
      assert LeftQueueAt(a, a.startedAt.value);
    } else if a.finishedAt.Some? {
      assert LeftQueueAt(a, a.finishedAt.value);
    }
  }

  // ----- sums over the given attempts -----

  function ElapsedOf(a: Attempt): int { if Ran(a) then a.finishedAt.value - a.startedAt.value else 0 }

  function Elapsed(): Attempt -> int { (a: Attempt) => ElapsedOf(a) }

  function Queued(): Attempt -> int {
    (a: Attempt) =>
      if a.startedAt.Some? then (if a.queuedAt <= a.startedAt.value then a.startedAt.value - a.queuedAt else 0)
      else if a.finishedAt.Some? && a.queuedAt <= a.finishedAt.value then a.finishedAt.value - a.queuedAt
      else 0
  }

  function Waited(): Attempt -> int {
    (a: Attempt) =>
      if !Ran(a) || a.sessionWaitMs <= 0 then 0
      else if a.sessionWaitMs <= a.finishedAt.value - a.startedAt.value then a.sessionWaitMs
      else a.finishedAt.value - a.startedAt.value
  }

  function RanOnce(): Attempt -> int { (a: Attempt) => if Ran(a) then 1 else 0 }

  /** An attempt without a duration counts as missing unless it was cancelled or postponed before it started. */
  function Unknown(): Attempt -> int {
    (a: Attempt) =>
      if Ran(a) || (a.startedAt.None? && a.status in {"cancelled", "postponed"}) then 0 else 1
  }

  lemma {:induction false} TotalOfInsert<T>(xs: seq<T>, x: T, key: T -> int, f: T -> int)
    ensures Total(Insert(xs, x, key), f) == Total(xs, f) + f(x)
  {
    if xs == [] || key(Last(xs)) <= key(x) {
      TotalSnoc(xs, x, f);
    } else {
      TotalOfInsert(Front(xs), x, key, f);
      TotalSnoc(Insert(Front(xs), x, key), Last(xs), f);
    }
  }

  /** A total does not depend on the order. */
  lemma {:induction false} TotalOfSorted<T>(xs: seq<T>, key: T -> int, f: T -> int)
    ensures Total(StableSort(xs, key), f) == Total(xs, f)
  {
    if xs != [] {
      TotalOfSorted(Front(xs), key, f);
      TotalOfInsert(StableSort(Front(xs), key), Last(xs), key, f);
    }
  }

  /** `f` of each detail is `g` of its attempt. */
  ghost predicate ReadsOff(f: Detail -> int, g: Attempt -> int) {
    forall a, seenBefore :: f(DetailOf(a, seenBefore)) == g(a)
  }

  lemma {:induction false} TotalOfDetails(ordered: seq<Attempt>, f: Detail -> int, g: Attempt -> int)
    requires ReadsOff(f, g)
    ensures Total(DetailsOf(ordered), f) == Total(ordered, g)
  {
    if ordered != [] {
      var front, a := Front(ordered), Last(ordered);
      TotalOfDetails(front, f, g);
      TotalSnoc(DetailsOf(front), DetailOf(a, |Filter(front, EligibleIn(a.step))| > 0), f);
    }
  }

  lemma TotalOverAttempts(attempts: seq<Attempt>, f: Detail -> int, g: Attempt -> int)
    requires ReadsOff(f, g)
    ensures Total(Measure(attempts).details, f) == Total(attempts, g)
  {
    TotalOfDetails(StableSort(attempts, QueuedAt()), f, g);
    TotalOfSorted(attempts, QueuedAt(), g);
  }

  lemma RecordedIsElapsed()
    ensures ReadsOff(Recorded(), Elapsed())
  {
  }

  lemma QueueIsQueued()
    ensures ReadsOff(QueueMs(), Queued())
  {
  }

  lemma WaitIsWaited()
    ensures ReadsOff(WaitMs(), Waited())
  {
  }

  lemma CountsAreRuns()
    ensures ReadsOff(Timed(), RanOnce()) && ReadsOff(Missing(), Unknown())
  {
  }

  /** The measurement of a task holds the sums of its attempts' own times, and counts those that ran and those unknown. */
  lemma MeasuredTimes(attempts: seq<Attempt>)
    ensures var m := Measure(attempts);
      && m.recordedMs == Total(attempts, Elapsed())
      && m.queueMs == Total(attempts, Queued())
      && m.sessionWaitMs == Total(attempts, Waited())
      && m.timed == Total(attempts, RanOnce())
      && m.missing == Total(attempts, Unknown())
      && m.executionMs == if m.missing == 0 && m.timed > 0 then Some(Total(attempts, Elapsed())) else None
  {
    RecordedIsElapsed();
    QueueIsQueued();
    WaitIsWaited();
    CountsAreRuns();
    TotalOverAttempts(attempts, Recorded(), Elapsed());
    TotalOverAttempts(attempts, QueueMs(), Queued());
    TotalOverAttempts(attempts, WaitMs(), Waited());
    TotalOverAttempts(attempts, Timed(), RanOnce());
    TotalOverAttempts(attempts, Missing(), Unknown());
  }

  /** What a repeat took, by its attempt's own times. */
  function RepeatElapsed(): Detail -> int { (d: Detail) => if d.repeat then ElapsedOf(d.attempt) else 0 }

  lemma {:induction false} RepeatsInDetails(ordered: seq<Attempt>)
    ensures Total(DetailsOf(ordered), RepeatMs()) == Total(DetailsOf(ordered), RepeatElapsed())
  {
    if ordered != [] {
      var front, a := Front(ordered), Last(ordered);
      var d := DetailOf(a, |Filter(front, EligibleIn(a.step))| > 0);
      RepeatsInDetails(front);
      TotalSnoc(DetailsOf(front), d, RepeatMs());
      TotalSnoc(DetailsOf(front), d, RepeatElapsed());
      assert RepeatMs()(d) == RepeatElapsed()(d);
    }
  }

  /** The repeat time of a task is the time of its attempts that are marked as repeats. */
  lemma RepeatedTimes(attempts: seq<Attempt>)
    ensures Measure(attempts).repeatMs == Total(Measure(attempts).details, RepeatElapsed())
  {
    RepeatsInDetails(StableSort(attempts, QueuedAt()));
  }

  // ----- which attempts repeat -----

  /** The attempts at a step that started and were neither postponed nor cancelled. */
  function TriesAt(step: string): Attempt -> bool {
    (a: Attempt) => a.step == step && a.startedAt.Some? && a.status !in {"postponed", "cancelled"}
  }

  /** A step repeats once for every try after its first; the polling watch never does. */
  lemma StepRepeats(attempts: seq<Attempt>, step: string)
    ensures MeasureStep(attempts, step).repeats ==
      if step == "watch_pr_status_checks" then 0 else Max0(|Filter(attempts, TriesAt(step))| - 1)
  {
    RepeatsPerStep(attempts, step);
    if step == "watch_pr_status_checks" {
      FilterNone(attempts, EligibleIn(step));
    } else {
      FilterAgree(attempts, EligibleIn(step), TriesAt(step));
    }
  }
}
