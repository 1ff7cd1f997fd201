/** Timing measurements of a work item's attempts, and how they decompose. */
module TimingStatistics {
  import opened Options
  import opened Sequences

  datatype Attempt = Attempt(
    id: string,
    step: string,
    status: string,
    queuedAt: int,
    startedAt: Option<int>,
    finishedAt: Option<int>,
    sessionWaitMs: int)

  datatype Detail = Detail(attempt: Attempt, duration: Option<int>, repeat: bool, queue: Option<int>, sessionWait: int)

  datatype Measurement = Measurement(
    executionMs: Option<int>,
    recordedMs: int,
    timed: int,
    missing: int,
    repeats: int,
    repeatMs: int,
    queueMs: int,
    sessionWaitMs: int,
    details: seq<Detail>)

  function ValidDuration(start: Option<int>, end: Option<int>): Option<int> {
    if start.Some? && end.Some? && end.value >= start.value then Some(end.value - start.value) else None
  }

  function OrZero(x: Option<int>): int { if x.Some? then x.value else 0 }

  predicate NeverRan(a: Attempt) {
    a.startedAt.None? && (a.status == "cancelled" || a.status == "postponed")
  }

  /** Takes a repeat ordinal: it ran, it is no throttle yield or cancellation, and it is not the polling watch. */
  predicate Eligible(a: Attempt) {
    a.startedAt.Some? && a.status != "postponed" && a.status != "cancelled" && a.step != "watch_pr_status_checks"
  }

  function QueuedAt(): Attempt -> int { (a: Attempt) => a.queuedAt }

  function EligibleIn(step: string): Attempt -> bool { (a: Attempt) => Eligible(a) && a.step == step }

  function SessionWait(a: Attempt, duration: Option<int>): int {
    if duration.None? then 0
    else
      var wait := if a.sessionWaitMs > 0 then a.sessionWaitMs else 0;
      if duration.value < wait then duration.value else wait
  }

  function DetailOf(a: Attempt, seenBefore: bool): Detail {
    var duration := ValidDuration(a.startedAt, a.finishedAt);
    Detail(a, duration, Eligible(a) && seenBefore,
           ValidDuration(Some(a.queuedAt), if a.startedAt.Some? then a.startedAt else a.finishedAt),
           SessionWait(a, duration))
  }

  /** The details of attempts in order; one repeats if an eligible attempt at the same step precedes it. */
  function DetailsOf(ordered: seq<Attempt>): (r: seq<Detail>)
    ensures |r| == |ordered|
  {
    if ordered == [] then []
    else
      var front, a := Front(ordered), Last(ordered);
      DetailsOf(front) + [DetailOf(a, |Filter(front, EligibleIn(a.step))| > 0)]
  }

  // ----- what each detail adds to the totals -----

  function Recorded(): Detail -> int { (d: Detail) => if NeverRan(d.attempt) then 0 else OrZero(d.duration) }

  function Timed(): Detail -> int { (d: Detail) => if !NeverRan(d.attempt) && d.duration.Some? then 1 else 0 }

  function Missing(): Detail -> int { (d: Detail) => if !NeverRan(d.attempt) && d.duration.None? then 1 else 0 }

  function Repeats(): Detail -> int { (d: Detail) => if d.repeat then 1 else 0 }

  function RepeatMs(): Detail -> int { (d: Detail) => if d.repeat then OrZero(d.duration) else 0 }

  function QueueMs(): Detail -> int { (d: Detail) => OrZero(d.queue) }

  function WaitMs(): Detail -> int { (d: Detail) => d.sessionWait }

  function Total<T>(xs: seq<T>, f: T -> int): int {
    if xs == [] then 0 else Total(Front(xs), f) + f(Last(xs))
  }

  function Summarise(details: seq<Detail>): Measurement {
    var timed, missing, recorded := Total(details, Timed()), Total(details, Missing()), Total(details, Recorded());
    Measurement(if timed > 0 && missing == 0 then Some(recorded) else None,
                recorded, timed, missing,
                Total(details, Repeats()), Total(details, RepeatMs()),
                Total(details, QueueMs()), Total(details, WaitMs()), details)
  }

  /** The specification of `measureAttempts`: totals over the details of the stably sorted attempts. */
  function Measure(attempts: seq<Attempt>): Measurement {
    Summarise(DetailsOf(StableSort(attempts, QueuedAt())))
  }

  lemma TotalSnoc<T>(xs: seq<T>, x: T, f: T -> int)
    ensures Total(xs + [x], f) == Total(xs, f) + f(x)
  {
    assert Front(xs + [x]) == xs;
  }

  /** The seven counters of the loop. */
  datatype Tally = Tally(execution: int, timed: int, missing: int, repeats: int, repeatMs: int, queueMs: int, sessionWaitMs: int)

  function Count(t: Tally, d: Detail): Tally {
    Tally(t.execution + Recorded()(d), t.timed + Timed()(d), t.missing + Missing()(d), t.repeats + Repeats()(d),
          t.repeatMs + RepeatMs()(d), t.queueMs + QueueMs()(d), t.sessionWaitMs + WaitMs()(d))
  }

  function TallyOf(details: seq<Detail>): Tally {
    if details == [] then Tally(0, 0, 0, 0, 0, 0, 0) else Count(TallyOf(Front(details)), Last(details))
  }

  lemma TallySnoc(details: seq<Detail>, d: Detail)
    ensures TallyOf(details + [d]) == Count(TallyOf(details), d)
  {
    assert Front(details + [d]) == details;
  }

  lemma {:induction false} TallyIsTotals(details: seq<Detail>)
    ensures TallyOf(details) == Tally(
      Total(details, Recorded()), Total(details, Timed()), Total(details, Missing()), Total(details, Repeats()),
      Total(details, RepeatMs()), Total(details, QueueMs()), Total(details, WaitMs()))
  {
    if details != [] {
      TallyIsTotals(Front(details));
    }
  }

  lemma OneMoreAttempt(ordered: seq<Attempt>, a: Attempt)
    ensures forall step ::
      |Filter(ordered + [a], EligibleIn(step))|
        == |Filter(ordered, EligibleIn(step))| + (if Eligible(a) && a.step == step then 1 else 0)
    ensures DetailsOf(ordered + [a]) == DetailsOf(ordered) + [DetailOf(a, |Filter(ordered, EligibleIn(a.step))| > 0)]
  {
    assert Front(ordered + [a]) == ordered;
    forall step { FilterSnoc(ordered, a, EligibleIn(step)); }
  }

  function Ordinal(seen: map<string, nat>, step: string): nat {
    if step in seen then seen[step] else 0
  }

  /** `seen` counts the eligible attempts so far, per step. */
  ghost predicate SeenCounts(seen: map<string, nat>, ordered: seq<Attempt>) {
    forall step :: Ordinal(seen, step) == |Filter(ordered, EligibleIn(step))|
  }

  lemma SeenStep(seen: map<string, nat>, ordered: seq<Attempt>, a: Attempt)
    requires SeenCounts(seen, ordered)
    ensures Eligible(a) ==> SeenCounts(seen[a.step := Ordinal(seen, a.step) + 1], ordered + [a])
    ensures !Eligible(a) ==> SeenCounts(seen, ordered + [a])
    ensures Ordinal(seen, a.step) == |Filter(ordered, EligibleIn(a.step))|
    ensures DetailsOf(ordered + [a]) == DetailsOf(ordered) + [DetailOf(a, Ordinal(seen, a.step) > 0)]
  {
    OneMoreAttempt(ordered, a);
  }

  /** What one attempt adds to the seven counters. */
  method CountAttempt(t: Tally, attempt: Attempt, ordinal: nat) returns (r: Tally, detail: Detail)
    ensures detail == DetailOf(attempt, ordinal > 0)
    ensures r == Count(t, detail)
  {
    r := t;
    var duration := ValidDuration(attempt.startedAt, attempt.finishedAt);
    if !NeverRan(attempt) {
      if duration.None? {
        r := r.(missing := r.missing + 1);
      } else {
        r := r.(execution := r.execution + duration.value, timed := r.timed + 1);
      }
    }
    var repeat := Eligible(attempt) && ordinal > 0;
    if repeat {
      r := r.(repeats := r.repeats + 1, repeatMs := r.repeatMs + OrZero(duration));
    }
    var queue := ValidDuration(Some(attempt.queuedAt), if attempt.startedAt.Some? then attempt.startedAt else attempt.finishedAt);
    r := r.(queueMs := r.queueMs + OrZero(queue));
    var wait := SessionWait(attempt, duration);
    r := r.(sessionWaitMs := r.sessionWaitMs + wait);
    detail := Detail(attempt, duration, repeat, queue, wait);
  }

  method MeasureAttempts(attempts: seq<Attempt>) returns (m: Measurement)
    ensures m == Measure(attempts)
  {
    var tally := Tally(0, 0, 0, 0, 0, 0, 0);
    var seen: map<string, nat> := map[];
    var ordered := StableSort(attempts, QueuedAt());
    var details: seq<Detail> := [];
    for i := 0 to |ordered|
      invariant details == DetailsOf(ordered[..i])
      invariant SeenCounts(seen, ordered[..i])
      invariant tally == TallyOf(details)
    {
      var attempt := ordered[i];
      assert ordered[..i + 1] == ordered[..i] + [attempt];
      SeenStep(seen, ordered[..i], attempt);
      var ordinal := Ordinal(seen, attempt.step);
      TallySnoc(details, DetailOf(attempt, ordinal > 0));
      var counted, detail := CountAttempt(tally, attempt, ordinal);
      tally := counted;
      if Eligible(attempt) {
        seen := seen[attempt.step := ordinal + 1];
      }
      details := details + [detail];
    }
    assert ordered[..|ordered|] == ordered;
    TallyIsTotals(details);
    m := Measurement(if tally.timed > 0 && tally.missing == 0 then Some(tally.execution) else None,
                     tally.execution, tally.timed, tally.missing, tally.repeats, tally.repeatMs,
                     tally.queueMs, tally.sessionWaitMs, details);
  }
}
