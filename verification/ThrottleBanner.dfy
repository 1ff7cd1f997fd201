/**
 * The GitHub throttle banner. A deadline is the instant of an ISO string in milliseconds.
 * A timer fires no earlier than its delay, possibly later.
 */
module ThrottleBanner {
  import opened Options
  import opened Sequences

  // ----- deadlines in errors -----

  /** What an error carries as `retryAt`; text is read by an unknown function. */
  datatype RetryAt = Missing | NotFinite | Number(value: real) | Text(text: string)

  datatype GraphQlError = GraphQlError(throttled: bool, retryAt: RetryAt)

  /** The range of ECMA-262 section 21.4.1.31 (TimeClip). */
  const MAX_TIME := 8640000000000000

  function Truncated(x: real): int { if x >= 0.0 then x.Floor else -(-x).Floor }

  function Instant(retryAt: RetryAt, parse: string -> Option<int>): Option<int> {
    match retryAt
    case Number(value) => if -MAX_TIME <= Truncated(value) <= MAX_TIME then Some(Truncated(value)) else None
    case Text(text) => if |text| > 0 then parse(text) else None
    case _ => None
  }

  function DeadlineOf(e: GraphQlError, parse: string -> Option<int>): Option<int> {
    if e.throttled then Instant(e.retryAt, parse) else None
  }

  /** All the deadlines that an error mentions; an error of another shape mentions none. */
  ghost function Deadlines(error: Option<seq<GraphQlError>>, parse: string -> Option<int>): set<int> {
    if error.None? then {}
    else set i | 0 <= i < |error.value| && DeadlineOf(error.value[i], parse).Some? :: DeadlineOf(error.value[i], parse).value
  }

  /** A deadline is mentioned exactly by a throttling error that carries it, as a number in range or as a text that reads so. */
  lemma DeadlineIff(error: Option<seq<GraphQlError>>, parse: string -> Option<int>, d: int)
    ensures d in Deadlines(error, parse) <==>
      error.Some? && exists i :: 0 <= i < |error.value| && error.value[i].throttled && Carries(error.value[i].retryAt, parse, d)
  {
    if error.Some? {
      assert forall i :: 0 <= i < |error.value| ==>
        (DeadlineOf(error.value[i], parse) == Some(d) <==> error.value[i].throttled && Carries(error.value[i].retryAt, parse, d));
    }
  }

  /** A number stands for its whole part, a text for the instant it is read as. */
  predicate Carries(retryAt: RetryAt, parse: string -> Option<int>, d: int) {
    match retryAt
    case Number(value) =>
      && -MAX_TIME <= d <= MAX_TIME
      && (if value >= 0.0 then d as real <= value < (d + 1) as real else (d - 1) as real < value <= d as real)
    case Text(text) => text != "" && parse(text) == Some(d)
    case _ => false
  }

  function Later(current: Option<int>, candidate: Option<int>): Option<int> {
    if candidate.None? then current
    else if current.None? then candidate
    else if candidate.value > current.value then candidate else current
  }

  /** `r` is the greatest member of `ds` after `now`, if there is one. */
  ghost predicate IsLatestAfter(ds: set<int>, now: int, r: Option<int>) {
    && (r.Some? ==> r.value in ds && r.value > now)
    && forall d :: d in ds && d > now ==> r.Some? && d <= r.value
  }

  lemma LatestUnique(ds: set<int>, now: int, r: Option<int>, q: Option<int>)
    requires IsLatestAfter(ds, now, r) && IsLatestAfter(ds, now, q)
    ensures r == q
  {
  }

  method RetryAtFromError(error: Option<seq<GraphQlError>>, now: int, parse: string -> Option<int>) returns (latest: Option<int>)
    ensures IsLatestAfter(Deadlines(error, parse), now, latest)
  {
    latest := None;
    if error.None? { return; }
    var errors := error.value;
    assert errors[..|errors|] == errors;
    for i := 0 to |errors|
      invariant IsLatestAfter(Deadlines(Some(errors[..i]), parse), now, latest)
    {
      DeadlinesSnoc(errors[..i], errors[i], parse);
      assert errors[..i + 1] == errors[..i] + [errors[i]];
      if !errors[i].throttled { continue; }
      var retryAt := Instant(errors[i].retryAt, parse);
      if retryAt.None? { continue; }
      if retryAt.value <= now { continue; }
      latest := Later(latest, retryAt);
    }
  }

  lemma DeadlinesSnoc(errors: seq<GraphQlError>, e: GraphQlError, parse: string -> Option<int>)
    ensures Deadlines(Some(errors + [e]), parse) ==
      Deadlines(Some(errors), parse) + (if DeadlineOf(e, parse).Some? then {DeadlineOf(e, parse).value} else {})
  {
    var more := errors + [e];
    forall d | d in Deadlines(Some(errors), parse) ensures d in Deadlines(Some(more), parse) {
      var i :| 0 <= i < |errors| && DeadlineOf(errors[i], parse) == Some(d);
      assert more[i] == errors[i];
    }
    assert more[|errors|] == e;
  }

  // ----- the banner -----

  /** A pending hide timer: the deadline it was scheduled for, and when it may fire. */
  datatype HideTimer = HideTimer(scheduled: int, due: int)

  /** `considered` collects every deadline in any error seen so far, for the statements only. */
  datatype State = State(
    now: int,
    retryAt: Option<int>,
    cancelHide: Option<nat>,
    timers: map<nat, HideTimer>,
    created: nat,
    published: Option<int>,
    disposed: bool,
    considered: set<int>)

  datatype Event =
    /** The clock is read twice: to tell which deadlines are future, and to compute the delay. */
    | Consider(at: int, again: int, mentioned: set<int>, latest: Option<int>)
    | HideFires(at: int, timer: nat)
    | Dispose(at: int)

  /** A delay is a signed 32-bit number, and a negative one counts as zero (HTML, section 8.6). */
  function TimerDelay(delay: int): nat {
    var low := delay % 0x1_0000_0000;
    if low < 0x8000_0000 then low else 0
  }

  function Cancelled(s: State): State {
    s.(timers := if s.cancelHide.Some? then s.timers - {s.cancelHide.value} else s.timers, cancelHide := None)
  }

  function Schedule(s: State, deadline: int, now: int): State {
    s.(cancelHide := Some(s.created), created := s.created + 1,
       timers := s.timers[s.created := HideTimer(deadline, now + TimerDelay(deadline - now))])
  }

  function Publish(s: State, next: Option<int>, now: int): State {
    if next == s.retryAt then s
    else
      var c := Cancelled(s.(retryAt := next));
      var t := if next.None? then c
               else if next.value - now <= 0 then c.(retryAt := None)
               else Schedule(c, next.value, now);
      t.(published := t.retryAt)
  }

  function Start(at: int): State {
    State(at, None, None, map[], 0, None, false, {})
  }

  ghost predicate Enabled(s: State, e: Event) {
    && s.now <= e.at
    && match e
       case Consider(at, again, mentioned, latest) => !s.disposed && at <= again && IsLatestAfter(mentioned, at, latest)
       case HideFires(at, timer) => timer in s.timers && s.timers[timer].due <= at
       case Dispose(at) => !s.disposed
  }

  function Next(s: State, e: Event): State {
    match e
    case Consider(at, again, mentioned, latest) =>
      Publish(s.(now := again, considered := s.considered + mentioned), Later(s.retryAt, latest), again)
    case HideFires(at, timer) =>
      var t := s.(now := at, timers := s.timers - {timer});
      if timer !in s.timers || s.retryAt != Some(s.timers[timer].scheduled) then t
      else t.(retryAt := None, cancelHide := None, published := None)
    case Dispose(at) => Disposed(s.(now := at))
  }

  /** The callback keeps its cancel function after calling it. */
  function Disposed(s: State): State { Cancelled(s).(disposed := true, cancelHide := s.cancelHide) }

  ghost predicate IsStep(s: State, e: Event, t: State) { Enabled(s, e) && t == Next(s, e) }

  ghost predicate IsRun(start: int, states: seq<State>, events: seq<Event>) {
    && |states| == |events| + 1 && states[0] == Start(start)
    && forall i :: 0 <= i < |events| ==> IsStep(states[i], events[i], states[i + 1])
  }

  // ----- one timer, for the deadline shown -----

  /** While following: one pending timer iff a deadline is shown, and it is for that deadline. After disposal: none. */
  ghost predicate TimerOk(s: State) {
    && s.published == s.retryAt
    && (s.disposed ==> s.timers == map[])
    && (!s.disposed ==>
          && (s.cancelHide.Some? <==> s.retryAt.Some?)
          && (s.retryAt.None? ==> s.timers == map[])
          && (s.retryAt.Some? ==>
                && s.cancelHide.value < s.created
                && s.cancelHide.value in s.timers && s.timers.Keys == {s.cancelHide.value}
                && s.timers[s.cancelHide.value].scheduled == s.retryAt.value))
  }

  lemma CancelEmpties(s: State)
    requires TimerOk(s) && !s.disposed
    ensures Cancelled(s).timers == map[]
  {
  }

  lemma PublishKeepsTimer(s: State, next: Option<int>, now: int)
    requires TimerOk(s) && !s.disposed
    ensures TimerOk(Publish(s, next, now)) && !Publish(s, next, now).disposed
    ensures Publish(s, next, now).retryAt == if next.Some? && next != s.retryAt && next.value <= now then None else next
  {
    CancelEmpties(s);
    if next != s.retryAt {
      assert Cancelled(s.(retryAt := next)).timers == map[];
    }
  }

  lemma StepKeepsTimer(s: State, e: Event, t: State)
    requires TimerOk(s) && IsStep(s, e, t)
    ensures TimerOk(t)
    ensures e.HideFires? ==> s.retryAt == Some(s.timers[e.timer].scheduled) && t.retryAt.None?
  {
    match e
    case Consider(at, again, mentioned, latest) =>
      PublishKeepsTimer(s.(now := again, considered := s.considered + mentioned), Later(s.retryAt, latest), again);
    case HideFires(at, timer) =>
    case Dispose(at) => CancelEmpties(s);
  }

  lemma {:induction false} RunKeepsTimer(start: int, states: seq<State>, events: seq<Event>, i: nat)
    requires IsRun(start, states, events) && i <= |events|
    ensures TimerOk(states[i])
  {
    if i > 0 {
      RunKeepsTimer(start, states, events, i - 1);
      assert IsStep(states[i - 1], events[i - 1], states[i]);
      StepKeepsTimer(states[i - 1], events[i - 1], states[i]);
    }
  }

  /** A timer that fires always belongs to the deadline shown: the callback's guard never turns it away. */
  lemma HideAlwaysMatches(start: int, states: seq<State>, events: seq<Event>, i: nat)
    requires IsRun(start, states, events) && i < |events| && events[i].HideFires?
    ensures !states[i].disposed && events[i].timer in states[i].timers
    ensures states[i].retryAt == Some(states[i].timers[events[i].timer].scheduled)
    ensures states[i + 1].retryAt.None? && states[i + 1].published.None?
  {
    RunKeepsTimer(start, states, events, i);
    assert IsStep(states[i], events[i], states[i + 1]);
    StepKeepsTimer(states[i], events[i], states[i + 1]);
  }

  // ----- the banner shows the latest deadline to come -----

  /** A deadline so far ahead that its delay does not fit the timer. */
  predicate TooFar(deadline: int, now: int) { deadline - now >= 0x8000_0000 }

  ghost predicate AllNear(e: Event) {
    e.Consider? ==> forall d :: d in e.mentioned ==> !TooFar(d, e.again)
  }

  /** Every deadline still to come is covered by the one shown, whose timer is not early. */
  ghost predicate Covers(s: State) {
    && (s.retryAt.Some? ==> s.retryAt.value in s.considered)
    && (!s.disposed ==>
          && (forall d :: d in s.considered && d > s.now ==> s.retryAt.Some? && d <= s.retryAt.value)
          && (forall timer :: timer in s.timers ==> s.timers[timer].due >= s.timers[timer].scheduled))
  }

  lemma NearDelay(deadline: int, now: int)
    requires deadline > now && !TooFar(deadline, now)
    ensures now + TimerDelay(deadline - now) == deadline
  {
  }

  lemma PublishKeepsCover(s: State, latest: Option<int>, now: int)
    requires TimerOk(s) && !s.disposed && s.now == now
    requires latest.Some? ==> latest.value in s.considered && !TooFar(latest.value, now)
    requires s.retryAt.Some? ==> s.retryAt.value in s.considered
    requires forall d :: d in s.considered && d > now ==> Later(s.retryAt, latest).Some? && d <= Later(s.retryAt, latest).value
    requires forall timer :: timer in s.timers ==> s.timers[timer].due >= s.timers[timer].scheduled
    ensures Covers(Publish(s, Later(s.retryAt, latest), now))
  {
    var next := Later(s.retryAt, latest);
    if next != s.retryAt {
      CancelEmpties(s);
      assert Cancelled(s.(retryAt := next)).timers == map[];
      if next.value > now { NearDelay(next.value, now); }
    }
  }

  lemma StepKeepsCover(s: State, e: Event, t: State)
    requires TimerOk(s) && Covers(s) && IsStep(s, e, t) && AllNear(e)
    ensures Covers(t)
  {
    match e
    case Consider(at, again, mentioned, latest) =>
      var u := s.(now := again, considered := s.considered + mentioned);
      forall d | d in u.considered && d > again ensures Later(s.retryAt, latest).Some? && d <= Later(s.retryAt, latest).value {
        assert d in s.considered || d in mentioned;
      }
      PublishKeepsCover(u, latest, again);
    case HideFires(at, timer) => StepKeepsTimer(s, e, t);
    case Dispose(at) =>
  }

  lemma {:induction false} RunKeepsCover(start: int, states: seq<State>, events: seq<Event>, i: nat)
    requires IsRun(start, states, events) && i <= |events|
    requires forall k :: 0 <= k < i ==> AllNear(events[k])
    ensures Covers(states[i])
  {
    if i > 0 {
      RunKeepsCover(start, states, events, i - 1);
      RunKeepsTimer(start, states, events, i - 1);
      assert IsStep(states[i - 1], events[i - 1], states[i]);
      StepKeepsCover(states[i - 1], events[i - 1], states[i]);
    }
  }

  /** What a viewer sees as still to come. */
  function Upcoming(shown: Option<int>, now: int): Option<int> {
    if shown.Some? && shown.value > now then shown else None
  }

  /**
   * At every moment the banner shows the greatest deadline still to come among all that were ever considered,
   * for any order and repetition of errors and however late the timers.
   */
  lemma BannerIsLatest(start: int, states: seq<State>, events: seq<Event>, i: nat, now: int)
    requires IsRun(start, states, events) && i <= |events| && !states[i].disposed && now >= states[i].now
    requires forall k :: 0 <= k < i ==> AllNear(events[k])
    ensures IsLatestAfter(states[i].considered, now, Upcoming(states[i].published, now))
  {
    RunKeepsTimer(start, states, events, i);
    RunKeepsCover(start, states, events, i);
  }

  /** So two followers that considered the same deadlines show the same at the same time. */
  lemma OrderIsInvisible(startA: int, a: seq<State>, eventsA: seq<Event>, startB: int, b: seq<State>, eventsB: seq<Event>, now: int)
    requires IsRun(startA, a, eventsA) && IsRun(startB, b, eventsB)
    requires forall k :: 0 <= k < |eventsA| ==> AllNear(eventsA[k])
    requires forall k :: 0 <= k < |eventsB| ==> AllNear(eventsB[k])
    requires !Last(a).disposed && !Last(b).disposed && now >= Last(a).now && now >= Last(b).now
    requires Last(a).considered == Last(b).considered
    ensures Upcoming(Last(a).published, now) == Upcoming(Last(b).published, now)
  {
    BannerIsLatest(startA, a, eventsA, |eventsA|, now);
    BannerIsLatest(startB, b, eventsB, |eventsB|, now);
    LatestUnique(Last(a).considered, now, Upcoming(Last(a).published, now), Upcoming(Last(b).published, now));
  }

  /** The step that shows a new, later deadline. */
  function Shown(s: State, deadline: int, now: int): State {
    Publish(s.(now := now, considered := s.considered + {deadline}), Some(deadline), now)
  }

  lemma ShowingSetsTimer(s: State, deadline: int, now: int)
    requires TimerOk(s) && !s.disposed && deadline > now && s.retryAt != Some(deadline)
    ensures var t := Shown(s, deadline, now);
      && t.published == t.retryAt == Some(deadline) && t.cancelHide == Some(s.created) && !t.disposed && t.now == now
      && t.timers == map[s.created := HideTimer(deadline, now + TimerDelay(deadline - now))]
      && t.considered == s.considered + {deadline}
  {
    CancelEmpties(s);
  }

  /** Whether the hide timer of the deadline shown can fire while the banner should still show something. */
  ghost predicate CanHideEarly(t: State, timer: nat) {
    exists at :: Enabled(t, HideFires(at, timer))
      && !IsLatestAfter(t.considered, at, Upcoming(Next(t, HideFires(at, timer)).published, at))
  }

  /**
   * The limit is exact. From any state in which the banner is right, showing a new deadline can go wrong
   * at its hide timer if and only if the deadline is too far ahead.
   */
  lemma HidesEarlyIff(s: State, deadline: int, now: int)
    requires TimerOk(s) && Covers(s) && !s.disposed && s.now <= now < deadline
    requires s.retryAt.None? || s.retryAt.value < deadline
    ensures CanHideEarly(Shown(s, deadline, now), s.created) <==> TooFar(deadline, now)
  {
    var t := Shown(s, deadline, now);
    var due := now + TimerDelay(deadline - now);
    ShowingSetsTimer(s, deadline, now);
    if TooFar(deadline, now) {
      assert Enabled(t, HideFires(due, s.created));
      assert deadline in t.considered && due < deadline;
      assert Next(t, HideFires(due, s.created)).published == None;
    } else {
      NearDelay(deadline, now);
      forall at | Enabled(t, HideFires(at, s.created))
        ensures IsLatestAfter(t.considered, at, Upcoming(Next(t, HideFires(at, s.created)).published, at))
      {
        assert forall d :: d in t.considered && d > now ==> d <= deadline;
      }
    }
  }

  /** A deadline 2^32 ms ahead may be hidden at once. */
  lemma FarDeadlineVanishes(start: int)
    ensures var deadline := start + 0x1_0000_0000;
      var shown := Next(Start(start), Consider(start, start, {deadline}, Some(deadline)));
      && Enabled(Start(start), Consider(start, start, {deadline}, Some(deadline)))
      && Enabled(shown, HideFires(start, 0)) && Next(shown, HideFires(start, 0)).published == None
  {
  }
}

/** The banner's closure variables, with each callback proved against the transition it is. */
module ThrottleBannerObject {
  import opened Options
  import opened ThrottleBanner

  class ThrottleFollower {
    var retryAt: Option<int>
    var cancelHide: Option<nat>
    var timers: map<nat, HideTimer>
    var created: nat
    var published: Option<int>
    var disposed: bool
    ghost var now: int
    ghost var considered: set<int>

    ghost function Model(): State
      reads this
    {
      State(now, retryAt, cancelHide, timers, created, published, disposed, considered)
    }

    constructor (at: int)
      ensures Model() == Start(at)
    {
      retryAt, cancelHide, timers, created, published, disposed := None, None, map[], 0, None, false;
      now, considered := at, {};
    }

    method PublishDeadline(next: Option<int>, at: int)
      modifies this
      ensures Model() == Publish(old(Model()), next, at)
    {
      if next == retryAt { return; }
      retryAt := next;
      if cancelHide.Some? { timers := timers - {cancelHide.value}; }
      cancelHide := None;
      if next.Some? {
        var delay := next.value - at;
        if delay <= 0 {
          retryAt := None;
        } else {
          timers := timers[created := HideTimer(next.value, at + TimerDelay(delay))];
          cancelHide, created := Some(created), created + 1;
        }
      }
      published := retryAt;
    }

    method ConsiderError(error: Option<seq<GraphQlError>>, parse: string -> Option<int>, at: int, again: int)
      requires !disposed && now <= at <= again
      modifies this
      ensures exists latest ::
        && Enabled(old(Model()), Consider(at, again, Deadlines(error, parse), latest))
        && Model() == Next(old(Model()), Consider(at, again, Deadlines(error, parse), latest))
    {
      var latest := RetryAtFromError(error, at, parse);
      ghost var e := Consider(at, again, Deadlines(error, parse), latest);
      assert Enabled(Model(), e);
      now, considered := again, considered + Deadlines(error, parse);
      PublishDeadline(Later(retryAt, latest), again);
    }

    method OnHideTimer(timer: nat, at: int)
      requires Enabled(Model(), HideFires(at, timer))
      modifies this
      ensures Model() == Next(old(Model()), HideFires(at, timer))
    {
      var scheduled := timers[timer].scheduled;
      timers, now := timers - {timer}, at;
      if retryAt != Some(scheduled) { return; }
      retryAt, cancelHide, published := None, None, None;
    }

    method DisposeFollower(at: int)
      requires Enabled(Model(), Dispose(at))
      modifies this
      ensures Model() == Next(old(Model()), Dispose(at))
    {
      disposed, now := true, at;
      if cancelHide.Some? { timers := timers - {cancelHide.value}; }
    }
  }
}
