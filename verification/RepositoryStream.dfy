/**
 * The repository change stream between two awaits: reads, the stale watch and abort, on top of frame cutting.
 * A read slice happens at one instant. A timer fires no earlier than its delay, possibly later.
 */
module RepositoryStream {
  import opened Options
  import opened Sequences
  import opened EventFrames
  import opened SubscriptionEvents

  const HEARTBEAT_INTERVAL_MS := 12000
  const STALE_AFTER_MS := 45000

  type Handler = string -> Handled<Activity, Reason>

  datatype Timer = Unset | Armed(due: int) | Fired

  datatype End = Completed | StreamEnded | Stale(age: int) | Aborted | FrameFailed | ReadError

  /** What `onActivity` is told. */
  datatype Notice = ChunkSeen | FrameSeen(activity: Activity)

  /** `seen` is the text accepted so far, kept for the statements only. */
  datatype State = State(
    now: int,
    lastActivityAt: int,
    timer: Timer,
    staleError: Option<int>,
    aborted: bool,
    buffer: string,
    notices: seq<Notice>,
    ended: Option<End>,
    seen: string)

  datatype Event =
    | Received(at: int, bytes: bool, text: string)
    | Finished(at: int, bytes: bool, text: string)
    | ReadFailed(at: int)
    | StaleFires(at: int)
    | Abort(at: int)

  /** `bound` is `staleAfterMs`; `None` stands for an infinite bound. */
  function ArmStaleWatch(s: State, bound: Option<int>, at: int): State {
    s.(timer := if bound.None? then Unset else Armed(at + bound.value))
  }

  function NoteActivity(s: State, bound: Option<int>, at: int, notice: Notice): State {
    ArmStaleWatch(s.(lastActivityAt := at, notices := s.notices + [notice]), bound, at)
  }

  function NoteFrames(s: State, bound: Option<int>, at: int, activities: seq<Activity>): State {
    if activities == [] then s
    else NoteActivity(NoteFrames(s, bound, at, Front(activities)), bound, at, FrameSeen(Last(activities)))
  }

  /** The `finally` block clears the watch. */
  function EndWith(s: State, end: End): State { s.(ended := Some(end), timer := Unset) }

  function EndOfReason(reason: Reason): End {
    if reason == Complete then Completed else FrameFailed
  }

  /** `drainFrames`, and the end of the stream if a frame asks for it. */
  function DrainSlice(s: State, bound: Option<int>, at: int, handle: Handler): State {
    AfterDrain(s, bound, at, Drain(s.buffer, handle))
  }

  function AfterDrain(s: State, bound: Option<int>, at: int, drained: Drained<Activity, Reason>): State {
    var noted := NoteFrames(s, bound, at, drained.outcome.delivered).(buffer := drained.buffer);
    if drained.outcome.stopped.Some? then EndWith(noted, EndOfReason(drained.outcome.stopped.value)) else noted
  }

  /** The checks after a read, then the chunk. */
  function Append(s: State, bound: Option<int>, at: int, bytes: bool, text: string): State {
    var noted := if bytes then NoteActivity(s, bound, at, ChunkSeen) else s;
    noted.(buffer := s.buffer + text, seen := s.seen + text)
  }

  function StaleOrAborted(s: State): Option<End> {
    if s.staleError.Some? then Some(Stale(s.staleError.value))
    else if s.aborted then Some(Aborted)
    else None
  }

  function Start(bound: Option<int>, at: int): State {
    ArmStaleWatch(State(at, at, Unset, None, false, "", [], None, ""), bound, at)
  }

  /** An empty chunk carries no text; only a set watch fires, when it is due or later. */
  ghost predicate Enabled(s: State, e: Event) {
    && s.ended.None? && s.now <= e.at
    && (e.Received? && !e.bytes ==> e.text == "")
    && (e.StaleFires? ==> s.timer.Armed? && s.timer.due <= e.at)
  }

  function Next(s: State, bound: Option<int>, handle: Handler, e: Event): State {
    var t := s.(now := e.at);
    match e
    case Received(at, bytes, text) =>
      if StaleOrAborted(t).Some? then EndWith(t, StaleOrAborted(t).value)
      else DrainSlice(Append(t, bound, at, bytes, text), bound, at, handle)
    case Finished(at, bytes, text) =>
      if StaleOrAborted(t).Some? then EndWith(t, StaleOrAborted(t).value)
      else
        var drained := DrainSlice(Append(t, bound, at, bytes, text), bound, at, handle);
        if drained.ended.Some? then drained else EndWith(drained, StreamEnded)
    case ReadFailed(at) =>
      EndWith(t, if t.staleError.Some? then Stale(t.staleError.value) else ReadError)
    case StaleFires(at) => t.(staleError := Some(at - t.lastActivityAt), timer := Fired)
    case Abort(at) => t.(aborted := true, timer := Unset)
  }

  ghost predicate IsStep(s: State, bound: Option<int>, handle: Handler, e: Event, t: State) {
    Enabled(s, e) && t == Next(s, bound, handle, e)
  }

  ghost predicate IsRun(bound: Option<int>, handle: Handler, start: int, states: seq<State>, events: seq<Event>) {
    && |states| == |events| + 1 && states[0] == Start(bound, start)
    && forall i :: 0 <= i < |events| ==> IsStep(states[i], bound, handle, events[i], states[i + 1])
  }

  // ----- the history the watch is judged against -----

  predicate IsChunk(e: Event) { (e.Received? || e.Finished?) && e.bytes }

  /** When the last non-empty chunk arrived, or the stream began. */
  function LastChunkAt(start: int, events: seq<Event>): int {
    if events == [] then start
    else if IsChunk(Last(events)) then Last(events).at
    else LastChunkAt(start, Front(events))
  }

  function FramesSeen(notices: seq<Notice>): seq<Activity> {
    if notices == [] then []
    else
      var before := FramesSeen(Front(notices));
      if Last(notices).FrameSeen? then before + [Last(notices).activity] else before
  }
}

/** What the stale watch and the frame loop guarantee over every run of the stream. */
module RepositoryStreamProofs {
  import opened Options
  import opened Sequences
  import opened EventFrames
  import opened SubscriptionEvents
  import opened RepositoryStream

  // ----- small steps -----

  /** `t` is `s` after noting some activities at one instant. */
  ghost predicate Noted(s: State, bound: Option<int>, at: int, activities: seq<Activity>, t: State) {
    && FramesSeen(t.notices) == FramesSeen(s.notices) + activities
    && t == s.(lastActivityAt := t.lastActivityAt, timer := t.timer, notices := t.notices)
    && (activities == [] ==> t == s)
    && (activities != [] ==> t.lastActivityAt == at && t.timer == if bound.None? then Unset else Armed(at + bound.value))
  }

  lemma NotingOne(s: State, bound: Option<int>, at: int, activities: seq<Activity>, t: State, activity: Activity)
    requires Noted(s, bound, at, activities, t)
    ensures Noted(s, bound, at, activities + [activity], NoteActivity(t, bound, at, FrameSeen(activity)))
  {
    var u := NoteActivity(t, bound, at, FrameSeen(activity));
    assert Front(u.notices) == t.notices && Last(u.notices) == FrameSeen(activity);
  }

  lemma {:induction false} NotingFrames(s: State, bound: Option<int>, at: int, activities: seq<Activity>)
    ensures Noted(s, bound, at, activities, NoteFrames(s, bound, at, activities))
  {
    if activities == [] {
      assert FramesSeen(s.notices) + [] == FramesSeen(s.notices);
    } else {
      NotingFrames(s, bound, at, Front(activities));
      NotingOne(s, bound, at, Front(activities), NoteFrames(s, bound, at, Front(activities)), Last(activities));
      assert activities == Front(activities) + [Last(activities)];
    }
  }

  /** The watch runs at the right time exactly while the stream is live and neither stale nor aborted. */
  ghost predicate WatchOk(s: State, bound: Option<int>) {
    && (s.timer.Armed? <==> bound.Some? && s.ended.None? && !s.aborted && s.staleError.None?)
    && (s.timer.Armed? ==> s.timer.due == s.lastActivityAt + bound.value)
    && (s.staleError.Some? ==> bound.Some? && s.staleError.value >= bound.value)
    && (s.ended.Some? && s.ended.value.Stale? <==> s.ended.Some? && s.staleError.Some?)
    && (s.ended.Some? && s.ended.value.Stale? ==> s.staleError == Some(s.ended.value.age))
  }

  ghost predicate Agrees(s: State, outcome: Outcome<Activity, Reason>, rest: string) {
    && FramesSeen(s.notices) == outcome.delivered
    && (s.ended.None? ==> outcome.stopped.None? && s.buffer == rest)
    && (s.ended == Some(Completed) <==> outcome.stopped == Some(Complete))
    && (s.ended == Some(FrameFailed) <==> outcome.stopped == Some(Failed))
  }

  /** The buffer and the notices are what the text accepted so far calls for. */
  ghost predicate TextOk(s: State, handle: Handler) {
    Agrees(s, Process(Split(s.seen).frames, handle), Split(s.seen).rest)
  }

  lemma DrainAgrees(s: State, bound: Option<int>, at: int, drained: Drained<Activity, Reason>,
                    outcome: Outcome<Activity, Reason>, rest: string)
    requires s.ended.None?
    requires outcome == Outcome(FramesSeen(s.notices) + drained.outcome.delivered, drained.outcome.stopped)
    requires outcome.stopped.None? ==> drained.buffer == rest
    ensures Agrees(AfterDrain(s, bound, at, drained), outcome, rest)
  {
    NotingFrames(s, bound, at, drained.outcome.delivered);
  }

  lemma DrainKeepsText(s: State, text: string, handle: Handler)
    requires TextOk(s, handle) && s.ended.None?
    ensures var buffer := s.buffer + text;
      var outcome := Process(Split(s.seen + text).frames, handle);
      var drained := Drain(buffer, handle);
      && outcome.delivered == FramesSeen(s.notices) + drained.outcome.delivered
      && outcome.stopped == drained.outcome.stopped
      && (outcome.stopped.None? ==> drained.buffer == Split(s.seen + text).rest)
  {
    SplitResumes(s.seen, text);
    ProcessConcat(Split(s.seen).frames, Split(s.buffer + text).frames, handle);
    DrainIsProcess(s.buffer + text, handle);
  }

  lemma AppendKeepsFrames(s: State, bound: Option<int>, at: int, bytes: bool, text: string)
    ensures FramesSeen(Append(s, bound, at, bytes, text).notices) == FramesSeen(s.notices)
  {
    if bytes {
      assert Front(Append(s, bound, at, bytes, text).notices) == s.notices;
    }
  }

  lemma SliceKeepsText(s: State, bound: Option<int>, at: int, bytes: bool, text: string, handle: Handler)
    requires TextOk(s, handle) && s.ended.None?
    ensures TextOk(DrainSlice(Append(s, bound, at, bytes, text), bound, at, handle), handle)
  {
    var a := Append(s, bound, at, bytes, text);
    var drained := Drain(a.buffer, handle);
    AppendKeepsFrames(s, bound, at, bytes, text);
    DrainKeepsText(s, text, handle);
    DrainAgrees(a, bound, at, drained, Process(Split(a.seen).frames, handle), Split(a.seen).rest);
    NotingFrames(a, bound, at, drained.outcome.delivered);
    assert AfterDrain(a, bound, at, drained).seen == a.seen;
  }

  lemma SliceKeepsWatch(s: State, bound: Option<int>, at: int, bytes: bool, text: string, handle: Handler)
    requires WatchOk(s, bound) && s.ended.None? && StaleOrAborted(s).None?
    ensures var t := DrainSlice(Append(s, bound, at, bytes, text), bound, at, handle);
      && WatchOk(t, bound)
      && (t.ended.None? && bytes ==> t.lastActivityAt == at)
      && t.staleError == s.staleError && t.aborted == s.aborted
  {
    var a := Append(s, bound, at, bytes, text);
    NotingFrames(a, bound, at, Drain(a.buffer, handle).outcome.delivered);
  }

  lemma EmptySlice(s: State, bound: Option<int>, at: int, handle: Handler)
    requires TextOk(s, handle) && s.ended.None?
    ensures DrainSlice(Append(s, bound, at, false, ""), bound, at, handle) == s
  {
    assert s.buffer + "" == s.buffer && s.seen + "" == s.seen;
    RestHasNoBoundary(s.seen);
    NotingFrames(s, bound, at, []);
  }

  lemma StepKeeps(s: State, bound: Option<int>, handle: Handler, e: Event, t: State)
    requires WatchOk(s, bound) && TextOk(s, handle) && IsStep(s, bound, handle, e, t)
    ensures WatchOk(t, bound) && TextOk(t, handle)
  {
    if (e.Received? || e.Finished?) && StaleOrAborted(s).None? {
      SliceKeepsText(s.(now := e.at), bound, e.at, e.bytes, e.text, handle);
      SliceKeepsWatch(s.(now := e.at), bound, e.at, e.bytes, e.text, handle);
    }
  }

  lemma {:induction false} RunKeeps(bound: Option<int>, handle: Handler, start: int, states: seq<State>, events: seq<Event>, i: nat)
    requires IsRun(bound, handle, start, states, events) && i <= |events|
    ensures WatchOk(states[i], bound) && TextOk(states[i], handle)
  {
    if i == 0 {
      assert Split("") == Cut([], "");
    } else {
      RunKeeps(bound, handle, start, states, events, i - 1);
      assert IsStep(states[i - 1], bound, handle, events[i - 1], states[i]);
      StepKeeps(states[i - 1], bound, handle, events[i - 1], states[i]);
    }
  }

  // ----- the watch is exact -----

  /** While the stream lives and is not stale, its activity clock shows the last non-empty chunk. */
  lemma {:induction false} ClockShowsLastChunk(bound: Option<int>, handle: Handler, start: int, states: seq<State>, events: seq<Event>, i: nat)
    requires IsRun(bound, handle, start, states, events) && i <= |events| && states[i].ended.None?
    ensures states[i].staleError.None? && !states[i].aborted ==> states[i].lastActivityAt == LastChunkAt(start, events[..i])
  {
    if i > 0 {
      var s, e := states[i - 1], events[i - 1];
      assert IsStep(s, bound, handle, e, states[i]);
      ClockShowsLastChunk(bound, handle, start, states, events, i - 1);
      RunKeeps(bound, handle, start, states, events, i - 1);
      assert Front(events[..i]) == events[..i - 1];
      if e.Received? && StaleOrAborted(s).None? {
        SliceKeepsWatch(s.(now := e.at), bound, e.at, e.bytes, e.text, handle);
        EmptySlice(s.(now := e.at), bound, e.at, handle);
      }
    }
  }

  /** A stale error was raised by the watch at some event, and no chunk had arrived for at least the bound. */
  ghost predicate RaisedAt(bound: Option<int>, start: int, events: seq<Event>, age: int, j: nat) {
    && j < |events| && events[j].StaleFires? && bound.Some?
    && age == events[j].at - LastChunkAt(start, events[..j]) && age >= bound.value
  }

  lemma {:induction false} StaleMeansSilence(bound: Option<int>, handle: Handler, start: int, states: seq<State>, events: seq<Event>, i: nat)
    requires IsRun(bound, handle, start, states, events) && i <= |events| && states[i].staleError.Some?
    ensures exists j: nat :: j < i && RaisedAt(bound, start, events, states[i].staleError.value, j)
  {
    if i > 0 {
      var s, e := states[i - 1], events[i - 1];
      assert IsStep(s, bound, handle, e, states[i]);
      RunKeeps(bound, handle, start, states, events, i - 1);
      if s.staleError.Some? {
        StaleMeansSilence(bound, handle, start, states, events, i - 1);
        assert states[i].staleError == s.staleError;
        var j: nat :| j < i - 1 && RaisedAt(bound, start, events, s.staleError.value, j);
        assert j < i && RaisedAt(bound, start, events, states[i].staleError.value, j);
      } else {
        if (e.Received? || e.Finished?) && StaleOrAborted(s).None? {
          SliceKeepsWatch(s.(now := e.at), bound, e.at, e.bytes, e.text, handle);
        }
        ClockShowsLastChunk(bound, handle, start, states, events, i - 1);
        assert RaisedAt(bound, start, events, states[i].staleError.value, i - 1);
      }
    }
  }

  /** Every non-empty chunk, and the end of the run, comes less than `limit` after the chunk before it. */
  ghost predicate GapsBelow(limit: int, start: int, events: seq<Event>) {
    && (forall j :: 0 <= j < |events| && IsChunk(events[j]) ==> events[j].at - LastChunkAt(start, events[..j]) < limit)
    && (events != [] ==> Last(events).at - LastChunkAt(start, events) < limit)
  }

  lemma SliceTakesNoTime(s: State, bound: Option<int>, at: int, bytes: bool, text: string, handle: Handler)
    ensures DrainSlice(Append(s, bound, at, bytes, text), bound, at, handle).now == s.now
  {
    var a := Append(s, bound, at, bytes, text);
    NotingFrames(a, bound, at, Drain(a.buffer, handle).outcome.delivered);
  }

  lemma StepTimes(s: State, bound: Option<int>, handle: Handler, e: Event, t: State)
    requires IsStep(s, bound, handle, e, t)
    ensures s.now <= e.at == t.now
  {
    if e.Received? || e.Finished? {
      SliceTakesNoTime(s.(now := e.at), bound, e.at, e.bytes, e.text, handle);
    }
  }

  lemma TimesAt(bound: Option<int>, handle: Handler, start: int, states: seq<State>, events: seq<Event>, j: nat)
    requires IsRun(bound, handle, start, states, events) && j < |events|
    ensures states[j].now <= events[j].at == states[j + 1].now
  {
    StepTimes(states[j], bound, handle, events[j], states[j + 1]);
  }

  /** Then every event, the timer's own included, comes less than `limit` after the chunk before it. */
  lemma {:induction false} EveryGapBelow(limit: int, bound: Option<int>, handle: Handler, start: int, states: seq<State>, events: seq<Event>, j: nat)
    requires IsRun(bound, handle, start, states, events) && GapsBelow(limit, start, events) && j < |events|
    ensures events[j].at - LastChunkAt(start, events[..j]) < limit
    decreases |events| - j
  {
    if !IsChunk(events[j]) {
      assert Front(events[..j + 1]) == events[..j];
      if j + 1 < |events| {
        EveryGapBelow(limit, bound, handle, start, states, events, j + 1);
        TimesAt(bound, handle, start, states, events, j);
        TimesAt(bound, handle, start, states, events, j + 1);
      } else {
        assert events[..j + 1] == events;
      }
    }
  }

  /** A stream whose chunks come less than the bound apart never goes stale, nor does one without a bound. */
  lemma BusyStreamNeverStale(bound: Option<int>, handle: Handler, start: int, states: seq<State>, events: seq<Event>, i: nat)
    requires IsRun(bound, handle, start, states, events) && i <= |events|
    requires bound.None? || GapsBelow(bound.value, start, events)
    ensures states[i].staleError.None? && (states[i].ended.Some? ==> !states[i].ended.value.Stale?)
  {
    RunKeeps(bound, handle, start, states, events, i);
    if states[i].staleError.Some? {
      StaleMeansSilence(bound, handle, start, states, events, i);
      var j: nat :| j < i && RaisedAt(bound, start, events, states[i].staleError.value, j);
      EveryGapBelow(bound.value, bound, handle, start, states, events, j);
    }
  }

  /** In particular a heartbeat every 12 seconds, even one that is 30 seconds late, keeps the stream alive. */
  lemma HeartbeatKeepsAlive(handle: Handler, start: int, states: seq<State>, events: seq<Event>, late: nat, i: nat)
    requires IsRun(Some(STALE_AFTER_MS), handle, start, states, events) && i <= |events|
    requires late <= 30000 && GapsBelow(HEARTBEAT_INTERVAL_MS + late, start, events)
    ensures states[i].staleError.None?
  {
    BusyStreamNeverStale(Some(STALE_AFTER_MS), handle, start, states, events, i);
  }

  lemma StaleStep(s: State, bound: Option<int>, handle: Handler, e: Event, t: State)
    requires WatchOk(s, bound) && s.staleError.Some? && IsStep(s, bound, handle, e, t)
    ensures t.staleError == s.staleError && t.notices == s.notices && t.seen == s.seen
    ensures t.ended.Some? ==> t.ended.value == Stale(s.staleError.value)
  {
  }

  lemma StaleStepAt(bound: Option<int>, handle: Handler, start: int, states: seq<State>, events: seq<Event>, k: nat)
    requires IsRun(bound, handle, start, states, events) && k < |events| && states[k].staleError.Some?
    ensures states[k].ended.None? && states[k + 1].staleError == states[k].staleError
    ensures states[k + 1].notices == states[k].notices && states[k + 1].seen == states[k].seen
    ensures states[k + 1].ended.Some? ==> states[k + 1].ended.value == Stale(states[k].staleError.value)
  {
    RunKeeps(bound, handle, start, states, events, k);
    assert IsStep(states[k], bound, handle, events[k], states[k + 1]);
    StaleStep(states[k], bound, handle, events[k], states[k + 1]);
  }

  /** Once stale, the stream reports no activity, accepts no text, and can only end as stale with that age. */
  lemma {:induction false} NothingAfterStale(bound: Option<int>, handle: Handler, start: int, states: seq<State>, events: seq<Event>, i: nat, k: nat)
    requires IsRun(bound, handle, start, states, events) && i <= k <= |events| && states[i].staleError.Some?
    ensures states[k].staleError == states[i].staleError
    ensures states[k].notices == states[i].notices && states[k].seen == states[i].seen
    ensures states[i].ended.None? && states[k].ended.Some? ==> states[k].ended.value == Stale(states[i].staleError.value)
  {
    if i < k {
      NothingAfterStale(bound, handle, start, states, events, i, k - 1);
      StaleStepAt(bound, handle, start, states, events, k - 1);
    }
  }

  lemma AbortedStep(s: State, bound: Option<int>, handle: Handler, e: Event, t: State)
    requires WatchOk(s, bound) && s.aborted && s.staleError.None? && IsStep(s, bound, handle, e, t)
    ensures t.aborted && t.staleError.None? && t.notices == s.notices && t.seen == s.seen
    ensures t.ended.Some? <==> !e.Abort?
    ensures t.ended.Some? ==> t.ended.value == if e.ReadFailed? then ReadError else Aborted
  {
  }

  /** An aborted stream that was not stale reports nothing and accepts no text: its next read ends it as aborted, or throws. */
  lemma NothingAfterAbort(bound: Option<int>, handle: Handler, start: int, states: seq<State>, events: seq<Event>, i: nat)
    requires IsRun(bound, handle, start, states, events) && i < |events| && states[i].aborted && states[i].staleError.None?
    ensures var t := states[i + 1];
      && t.aborted && t.staleError.None? && t.notices == states[i].notices && t.seen == states[i].seen
      && t.ended == if events[i].Abort? then None else if events[i].ReadFailed? then Some(ReadError) else Some(Aborted)
  {
    RunKeeps(bound, handle, start, states, events, i);
    assert IsStep(states[i], bound, handle, events[i], states[i + 1]);
    AbortedStep(states[i], bound, handle, events[i], states[i + 1]);
  }

  lemma LiveStep(s: State, bound: Option<int>, handle: Handler, e: Event, t: State)
    requires StaleOrAborted(s).None? && IsStep(s, bound, handle, e, t)
    ensures t.ended.Some? ==> t.ended.value in {Completed, FrameFailed, StreamEnded, ReadError}
    ensures t.ended == Some(ReadError) <==> e.ReadFailed?
    ensures t.ended == Some(StreamEnded) ==> e.Finished?
    ensures e.Finished? ==> t.ended.Some?
  {
    if e.Received? || e.Finished? {
      var a := Append(s.(now := e.at), bound, e.at, e.bytes, e.text);
      NotingFrames(a, bound, e.at, Drain(a.buffer, handle).outcome.delivered);
    }
  }

  /**
   * How a stream that is neither stale nor aborted ends: by a frame, by the end of its body without such a frame,
   * or by a read that throws.
   */
  lemma HowItEnds(bound: Option<int>, handle: Handler, start: int, states: seq<State>, events: seq<Event>, i: nat)
    requires IsRun(bound, handle, start, states, events) && i < |events| && states[i].staleError.None? && !states[i].aborted
    ensures var t, stopped := states[i + 1], Process(Split(states[i + 1].seen).frames, handle).stopped;
      t.ended == if stopped == Some(Complete) then Some(Completed)
                 else if stopped == Some(Failed) then Some(FrameFailed)
                 else if events[i].ReadFailed? then Some(ReadError)
                 else if events[i].Finished? then Some(StreamEnded) else None
  {
    RunKeeps(bound, handle, start, states, events, i + 1);
    assert IsStep(states[i], bound, handle, events[i], states[i + 1]);
    LiveStep(states[i], bound, handle, events[i], states[i + 1]);
    EndsByText(states[i + 1], handle);
  }

  lemma EndsByText(s: State, handle: Handler)
    requires TextOk(s, handle)
    ensures var stopped := Process(Split(s.seen).frames, handle).stopped;
      && (s.ended == Some(Completed) <==> stopped == Some(Complete))
      && (s.ended == Some(FrameFailed) <==> stopped == Some(Failed))
  {
  }

  // ----- the frames -----

  /** At every moment the reported frames are those of the accepted text, however it was cut into chunks. */
  lemma ReportsMatchText(bound: Option<int>, handle: Handler, start: int, states: seq<State>, events: seq<Event>, i: nat)
    requires IsRun(bound, handle, start, states, events) && i <= |events|
    ensures var outcome := Process(Split(states[i].seen).frames, handle);
      && FramesSeen(states[i].notices) == outcome.delivered
      && (states[i].ended == Some(Completed) <==> outcome.stopped == Some(Complete))
      && (states[i].ended == Some(FrameFailed) <==> outcome.stopped == Some(Failed))
  {
    RunKeeps(bound, handle, start, states, events, i);
  }

  /** Heartbeats alone never end the stream, neither as complete nor as failed, and each is reported once. */
  lemma HeartbeatsOnly(bound: Option<int>, json: string -> RepositoryPayload, start: int, states: seq<State>, events: seq<Event>,
                       i: nat, frames: seq<Frame>, rest: string)
    requires IsRun(bound, RepositoryHandler(json), start, states, events) && i <= |events|
    requires states[i].seen == Joined(frames) + rest && Boundary(rest).None?
    requires forall frame :: frame in frames ==> IsHeartbeat(frame)
    ensures FramesSeen(states[i].notices) == Comments(|frames|)
    ensures states[i].ended != Some(Completed) && states[i].ended != Some(FrameFailed)
  {
    forall frame | frame in frames { HeartbeatIsSendable(frame); }
    RoundTripIff(frames, rest);
    HeartbeatsAreDelivered(frames, json);
    ReportsMatchText(bound, RepositoryHandler(json), start, states, events, i);
  }

  /** Two runs that accepted the same text report the same frames, and one completes or fails by a frame iff the other does. */
  lemma RunsAgree(bound: Option<int>, handle: Handler,
                  startA: int, a: seq<State>, eventsA: seq<Event>, startB: int, b: seq<State>, eventsB: seq<Event>)
    requires IsRun(bound, handle, startA, a, eventsA) && IsRun(bound, handle, startB, b, eventsB)
    requires Last(a).seen == Last(b).seen
    ensures FramesSeen(Last(a).notices) == FramesSeen(Last(b).notices)
    ensures Last(a).ended == Some(Completed) <==> Last(b).ended == Some(Completed)
    ensures Last(a).ended == Some(FrameFailed) <==> Last(b).ended == Some(FrameFailed)
  {
    RunKeeps(bound, handle, startA, a, eventsA, |eventsA|);
    RunKeeps(bound, handle, startB, b, eventsB, |eventsB|);
  }
}
