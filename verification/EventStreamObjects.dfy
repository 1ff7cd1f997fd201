/** The two read loops as the source writes them: buffers that are appended to, searched and sliced in place. */
module EventStreamObjects {
  import opened Options
  import opened Sequences
  import opened EventFrames
  import opened SubscriptionEvents
  import opened RepositoryStream

  function IssuesHandler(json: string -> IssuesPayload): string -> Handled<string, Reason> {
    (body: string) => HandleIssuesFrame(body, json)
  }

  /** A loop that has delivered something and still has `buffer` to drain. */
  function Resume<E, X>(delivered: seq<E>, drained: Drained<E, X>): Drained<E, X> {
    Drained(Outcome(delivered + drained.outcome.delivered, drained.outcome.stopped), drained.buffer)
  }

  lemma ResumeAfter<E, X>(delivered: seq<E>, event: E, drained: Drained<E, X>)
    ensures Resume(delivered, Drained(Outcome([event] + drained.outcome.delivered, drained.outcome.stopped), drained.buffer))
      == Resume(delivered + [event], drained)
  {
    assert delivered + ([event] + drained.outcome.delivered) == (delivered + [event]) + drained.outcome.delivered;
  }

  lemma DrainOne<E, X>(delivered: seq<E>, buffer: string, handle: string -> Handled<E, X>)
    requires Boundary(buffer).Some?
    ensures Resume(delivered, Drain(buffer, handle)) ==
      match handle(FirstFrame(buffer).body)
        case Stop(reason) => Drained(Outcome(delivered, Some(reason)), AfterFirst(buffer))
        case Skip => Resume(delivered, Drain(AfterFirst(buffer), handle))
        case Deliver(event) => Resume(delivered + [event], Drain(AfterFirst(buffer), handle))
  {
    match handle(FirstFrame(buffer).body)
    case Stop(reason) => assert delivered + [] == delivered;
    case Skip =>
    case Deliver(event) => ResumeAfter(delivered, event, Drain(AfterFirst(buffer), handle));
  }

  lemma DrainDone<E, X>(delivered: seq<E>, buffer: string, handle: string -> Handled<E, X>)
    requires Boundary(buffer).None?
    ensures Resume(delivered, Drain(buffer, handle)) == Drained(Outcome(delivered, None), buffer)
  {
  }

  lemma ReceiveOne<E, X>(delivered: seq<E>, buffer: string, chunks: seq<string>, handle: string -> Handled<E, X>)
    requires chunks != []
    ensures var drained := Drain(buffer + chunks[0], handle);
      Then(Outcome(delivered, None), Receive(buffer, chunks, handle))
        == Then(Outcome(delivered + drained.outcome.delivered, drained.outcome.stopped), Receive(drained.buffer, chunks[1..], handle))
  {
    ReceiveChunk(buffer, chunks, handle);
    var drained := Drain(buffer + chunks[0], handle);
    var more := Receive(drained.buffer, chunks[1..], handle);
    assert delivered + (drained.outcome.delivered + more.delivered) == (delivered + drained.outcome.delivered) + more.delivered;
  }

  /** Cuts the first frame off the buffer. */
  method TakeFrame(buffer: string, boundary: nat) returns (event: string, rest: string)
    requires Boundary(buffer) == Some(boundary)
    ensures event == FirstFrame(buffer).body && rest == AfterFirst(buffer)
  {
    var separator := SeparatorLength(buffer, boundary);
    event := buffer[..boundary];
    rest := buffer[boundary + separator..];
  }

  /** The inner loop of the issues stream. */
  method DrainIssues(buffer: string, json: string -> IssuesPayload)
    returns (delivered: seq<string>, stopped: Option<Reason>, left: string)
    ensures Drained(Outcome(delivered, stopped), left) == Drain(buffer, IssuesHandler(json))
  {
    delivered, stopped, left := [], None, buffer;
    ghost var handle := IssuesHandler(json);
    ghost var all := Drain(buffer, handle);
    assert Resume([], all) == all by { assert [] + all.outcome.delivered == all.outcome.delivered; }
    var boundary := Boundary(left);
    while boundary.Some?
      invariant boundary == Boundary(left)
      invariant Resume(delivered, Drain(left, handle)) == all
      invariant stopped.None?
      decreases |left|
    {
      DrainOne(delivered, left, handle);
      var event, rest := TakeFrame(left, boundary.value);
      left := rest;
      var handled := ParseIssuesEvent(event, json);
      match handled {
        case Stop(reason) =>
          return delivered, Some(reason), left;
        case Deliver(repositoryId) =>
          delivered := delivered + [repositoryId];
        case Skip =>
      }
      boundary := Boundary(left);
    }
    DrainDone(delivered, left, handle);
  }

  /**
   * The outer loop over the chunks of the body; the last one is the read that reports `done`.
   * The result depends on the whole text only.
   */
  method StreamIssuesChanged(chunks: seq<string>, json: string -> IssuesPayload)
    returns (delivered: seq<string>, stopped: Option<Reason>)
    ensures Outcome(delivered, stopped) == Process(Split(Concat(chunks)).frames, IssuesHandler(json))
  {
    var buffer := "";
    delivered, stopped := [], None;
    ghost var handle := IssuesHandler(json);
    var i := 0;
    ChunkingIsInvisible(chunks, chunks, handle);
    assert chunks[0..] == chunks;
    assert [] + Receive("", chunks, handle).delivered == Receive("", chunks, handle).delivered;
    while i < |chunks|
      invariant 0 <= i <= |chunks|
      invariant Then(Outcome(delivered, None), Receive(buffer, chunks[i..], handle)) == Receive("", chunks, handle)
      invariant stopped.None?
    {
      assert chunks[i..][0] == chunks[i] && chunks[i..][1..] == chunks[i + 1..];
      ReceiveOne(delivered, buffer, chunks[i..], handle);
      buffer := buffer + chunks[i];
      var more, reason, left := DrainIssues(buffer, json);
      delivered, buffer := delivered + more, left;
      if reason.Some? {
        return delivered, reason;
      }
      i := i + 1;
    }
    assert chunks[i..] == [];
    assert delivered + [] == delivered;
  }

  /** The repository stream with its buffer, its watch and its last activity. */
  class RepositoryChanges {
    const staleAfterMs: Option<int>
    const json: string -> RepositoryPayload
    var now: int
    var buffer: string
    var lastActivityAt: int
    var staleTimer: Timer
    var staleError: Option<int>
    var aborted: bool
    var notices: seq<Notice>
    var ended: Option<End>
    ghost var seen: string

    ghost function Model(): State
      reads this
    {
      State(now, lastActivityAt, staleTimer, staleError, aborted, buffer, notices, ended, seen)
    }

    constructor (staleAfterMs: Option<int>, json: string -> RepositoryPayload, at: int)
      ensures Model() == Start(staleAfterMs, at)
      ensures this.staleAfterMs == staleAfterMs && this.json == json
    {
      this.staleAfterMs, this.json := staleAfterMs, json;
      now, lastActivityAt := at, at;
      buffer, notices, seen := "", [], "";
      staleError, aborted, ended := None, false, None;
      staleTimer := if staleAfterMs.None? then Unset else Armed(at + staleAfterMs.value);
    }

    method ArmWatch(at: int)
      modifies this`staleTimer
      ensures Model() == ArmStaleWatch(old(Model()), staleAfterMs, at)
    {
      staleTimer := Unset;
      if staleAfterMs.None? { return; }
      staleTimer := Armed(at + staleAfterMs.value);
    }

    method Note(at: int, notice: Notice)
      modifies this
      ensures Model() == NoteActivity(old(Model()), staleAfterMs, at, notice)
    {
      lastActivityAt := at;
      ArmWatch(at);
      notices := notices + [notice];
    }

    lemma NoteSnoc(s: State, at: int, activities: seq<Activity>, activity: Activity)
      ensures NoteFrames(s, staleAfterMs, at, activities + [activity])
        == NoteActivity(NoteFrames(s, staleAfterMs, at, activities), staleAfterMs, at, FrameSeen(activity))
    {
      assert Front(activities + [activity]) == activities;
    }

    method DrainFrames(at: int) returns (stopped: Option<Reason>)
      modifies this
      ensures var drained := Drain(old(buffer), RepositoryHandler(json));
        && stopped == drained.outcome.stopped
        && Model() == NoteFrames(old(Model()), staleAfterMs, at, drained.outcome.delivered).(buffer := drained.buffer)
    {
      ghost var handle := RepositoryHandler(json);
      ghost var s, all := Model(), Drain(buffer, handle);
      ghost var delivered: seq<Activity> := [];
      assert Resume([], all) == all by { assert [] + all.outcome.delivered == all.outcome.delivered; }
      var boundary := Boundary(buffer);
      while boundary.Some?
        invariant boundary == Boundary(buffer)
        invariant Resume(delivered, Drain(buffer, handle)) == all
        invariant Model() == NoteFrames(s, staleAfterMs, at, delivered).(buffer := buffer)
        decreases |buffer|
      {
        DrainOne(delivered, buffer, handle);
        var event, rest := TakeFrame(buffer, boundary.value);
        buffer := rest;
        var parsed := ParseSubscriptionEvent(event, json);
        match parsed {
          case Stop(reason) =>
            return Some(reason);
          case Deliver(activity) =>
            NoteSnoc(s, at, delivered, activity);
            delivered := delivered + [activity];
            Note(at, FrameSeen(activity));
          case Skip =>
        }
        boundary := Boundary(buffer);
      }
      DrainDone(delivered, buffer, handle);
      stopped := None;
    }

    /** A frame ends the stream, or the reader goes on. */
    method Settle(end: End)
      modifies this
      ensures Model() == EndWith(old(Model()), end)
    {
      staleTimer := Unset;
      ended := Some(end);
    }

    /** Drains the buffer and settles if a frame asks for it. */
    method DrainAndSettle(at: int)
      modifies this
      ensures Model() == DrainSlice(old(Model()), staleAfterMs, at, RepositoryHandler(json))
    {
      var stopped := DrainFrames(at);
      if stopped.Some? {
        Settle(EndOfReason(stopped.value));
      }
    }

    /** One return of `reader.read()`: `done` marks the end of the body. */
    method AfterRead(at: int, done: bool, bytes: bool, text: string)
      requires Enabled(Model(), if done then Finished(at, bytes, text) else Received(at, bytes, text))
      modifies this
      ensures Model() == RepositoryStream.Next(old(Model()), staleAfterMs, RepositoryHandler(json),
                              if done then Finished(at, bytes, text) else Received(at, bytes, text))
    {
      now := at;
      if staleError.Some? {
        Settle(Stale(staleError.value));
        return;
      }
      if aborted {
        Settle(Aborted);
        return;
      }
      if bytes {
        Note(at, ChunkSeen);
      }
      buffer, seen := buffer + text, seen + text;
      DrainAndSettle(at);
      if done && ended.None? {
        Settle(StreamEnded);
      }
    }

    method ReadThrows(at: int)
      requires Enabled(Model(), ReadFailed(at))
      modifies this
      ensures Model() == RepositoryStream.Next(old(Model()), staleAfterMs, RepositoryHandler(json), ReadFailed(at))
    {
      now := at;
      if staleError.Some? {
        Settle(Stale(staleError.value));
      } else {
        Settle(ReadError);
      }
    }

    method OnStaleTimer(at: int)
      requires Enabled(Model(), StaleFires(at))
      modifies this
      ensures Model() == RepositoryStream.Next(old(Model()), staleAfterMs, RepositoryHandler(json), StaleFires(at))
    {
      now, staleTimer := at, Fired;
      var age := at - lastActivityAt;
      staleError := Some(age);
    }

    method OnAbort(at: int)
      requires Enabled(Model(), Abort(at))
      modifies this
      ensures Model() == RepositoryStream.Next(old(Model()), staleAfterMs, RepositoryHandler(json), Abort(at))
    {
      now, aborted, staleTimer := at, true, Unset;
    }
  }
}
