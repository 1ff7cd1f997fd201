/** Cutting a server-sent event stream into frames, whatever chunks the text arrives in. */
module EventFrames {
  import opened Options
  import opened Sequences

  /** The length of the match of `\r?\n` that starts at `i`, or 0. */
  function NewlineLength(s: string, i: nat): (n: nat)
    ensures n > 0 ==> n <= 2 && i + n <= |s|
  {
    if i < |s| && s[i] == '\n' then 1
    else if i + 1 < |s| && s[i] == '\r' && s[i + 1] == '\n' then 2
    else 0
  }

  /** The length of the match of `\r?\n\r?\n` that starts at `i`, or 0. */
  function SeparatorLength(s: string, i: nat): (n: nat)
    ensures n > 0 ==> 2 <= n <= 4 && i + n <= |s|
  {
    var first := NewlineLength(s, i);
    var second := NewlineLength(s, i + first);
    if first > 0 && second > 0 then first + second else 0
  }

  function Search(s: string, i: nat): (r: Option<nat>)
    requires i <= |s|
    ensures r.None? ==> forall k :: i <= k <= |s| ==> SeparatorLength(s, k) == 0
    ensures r.Some? ==> i <= r.value <= |s| && SeparatorLength(s, r.value) > 0
    ensures r.Some? ==> forall k :: i <= k < r.value ==> SeparatorLength(s, k) == 0
    decreases |s| - i
  {
    if SeparatorLength(s, i) > 0 then Some(i)
    else if i == |s| then None
    else Search(s, i + 1)
  }

  function Boundary(s: string): Option<nat> { Search(s, 0) }

  datatype Frame = Frame(body: string, separator: string)
  datatype Cut = Cut(frames: seq<Frame>, rest: string)

  function Prepend(frame: Frame, cut: Cut): Cut { Cut([frame] + cut.frames, cut.rest) }

  /** The first frame of a text that has one, and what follows it. */
  function FirstFrame(s: string): (frame: Frame)
    requires Boundary(s).Some?
    ensures 2 <= |frame.separator| && |frame.body| + |frame.separator| <= |s|
    ensures frame.body + frame.separator == s[..|frame.body| + |frame.separator|]
  {
    var b := Boundary(s).value;
    Frame(s[..b], s[b..b + SeparatorLength(s, b)])
  }

  function AfterFirst(s: string): (rest: string)
    requires Boundary(s).Some?
    ensures |rest| < |s|
  {
    s[|FirstFrame(s).body| + |FirstFrame(s).separator|..]
  }

  function Split(s: string): Cut
    decreases |s|
  {
    if Boundary(s).None? then Cut([], s) else Prepend(FirstFrame(s), Split(AfterFirst(s)))
  }

  // ----- more text never moves a boundary -----

  lemma SeparatorExtends(p: string, q: string, i: nat)
    requires i <= |p| && SeparatorLength(p, i) > 0
    ensures SeparatorLength(p + q, i) == SeparatorLength(p, i)
  {
  }

  /** Of two separators in a text, the one that starts first does not end last. */
  lemma LaterEndsLater(s: string, i: nat, j: nat)
    requires i < j <= |s| && SeparatorLength(s, i) > 0 && SeparatorLength(s, j) > 0
    ensures i + SeparatorLength(s, i) <= j + SeparatorLength(s, j)
  {
  }

  lemma SeparatorWithin(p: string, q: string, i: nat)
    requires i <= |p| && 0 < SeparatorLength(p + q, i) <= |p| - i
    ensures SeparatorLength(p, i) == SeparatorLength(p + q, i)
  {
    assert forall k :: 0 <= k < |p| ==> (p + q)[k] == p[k];
  }

  lemma BoundaryIs(s: string, b: nat)
    requires b <= |s| && SeparatorLength(s, b) > 0 && forall k :: 0 <= k < b ==> SeparatorLength(s, k) == 0
    ensures Boundary(s) == Some(b)
  {
  }

  lemma NoEarlierBoundary(p: string, q: string, b: nat, k: nat)
    requires k < b <= |p| && SeparatorLength(p, b) > 0 && SeparatorLength(p, k) == 0
    ensures SeparatorLength(p + q, k) == 0
  {
    SeparatorExtends(p, q, b);
    if SeparatorLength(p + q, k) > 0 {
      LaterEndsLater(p + q, k, b);
      SeparatorWithin(p, q, k);
    }
  }

  lemma BoundaryStays(p: string, q: string)
    requires Boundary(p).Some?
    ensures Boundary(p + q) == Boundary(p)
    ensures SeparatorLength(p + q, Boundary(p).value) == SeparatorLength(p, Boundary(p).value)
  {
    var b := Boundary(p).value;
    SeparatorExtends(p, q, b);
    forall k | 0 <= k < b ensures SeparatorLength(p + q, k) == 0 {
      NoEarlierBoundary(p, q, b, k);
    }
    BoundaryIs(p + q, b);
  }

  lemma FirstFrameStays(p: string, q: string)
    requires Boundary(p).Some?
    ensures Boundary(p + q).Some?
    ensures FirstFrame(p + q) == FirstFrame(p) && AfterFirst(p + q) == AfterFirst(p) + q
  {
    BoundaryStays(p, q);
    var b := Boundary(p).value;
    var n := SeparatorLength(p, b);
    assert (p + q)[..b] == p[..b] && (p + q)[b..b + n] == p[b..b + n] && (p + q)[b + n..] == p[b + n..] + q;
  }

  lemma FirstFrameCutsOff(s: string)
    requires Boundary(s).Some?
    ensures s == FirstFrame(s).body + FirstFrame(s).separator + AfterFirst(s)
  {
    var n := |FirstFrame(s).body| + |FirstFrame(s).separator|;
    assert s == s[..n] + s[n..];
  }

  lemma UnfoldSplit(s: string)
    requires Boundary(s).Some?
    ensures Split(s) == Prepend(FirstFrame(s), Split(AfterFirst(s)))
  {
  }

  lemma PrependResumed(frame: Frame, rest: Cut, whole: Cut, tail: Cut)
    requires whole == Cut(rest.frames + tail.frames, tail.rest)
    ensures Prepend(frame, whole) == Cut(Prepend(frame, rest).frames + tail.frames, tail.rest)
  {
  }

  /** Cutting can be resumed: cut a prefix, then cut what it left over together with the rest. */
  lemma {:induction false} SplitResumes(p: string, q: string)
    ensures Split(p + q) == Cut(Split(p).frames + Split(Split(p).rest + q).frames, Split(Split(p).rest + q).rest)
    decreases |p|
  {
    if Boundary(p).Some? {
      var rest := AfterFirst(p);
      FirstFrameStays(p, q);
      UnfoldSplit(p);
      UnfoldSplit(p + q);
      SplitResumes(rest, q);
      PrependResumed(FirstFrame(p), Split(rest), Split(rest + q), Split(Split(rest).rest + q));
    }
  }

  // ----- no text is lost or invented -----

  function Joined(frames: seq<Frame>): string {
    if frames == [] then "" else frames[0].body + frames[0].separator + Joined(frames[1..])
  }

  lemma JoinedPrepend(frame: Frame, cut: Cut)
    ensures Joined(Prepend(frame, cut).frames) == frame.body + frame.separator + Joined(cut.frames)
  {
    assert Prepend(frame, cut).frames[1..] == cut.frames;
  }

  lemma {:induction false} SplitLosesNothing(s: string)
    ensures Joined(Split(s).frames) + Split(s).rest == s
    decreases |s|
  {
    if Boundary(s).Some? {
      var frame, cut := FirstFrame(s), Split(AfterFirst(s));
      UnfoldSplit(s);
      FirstFrameCutsOff(s);
      SplitLosesNothing(AfterFirst(s));
      JoinedPrepend(frame, cut);
      Associates(frame.body + frame.separator, Joined(cut.frames), cut.rest);
    }
  }

  predicate IsSeparator(t: string) { t == "\n\n" || t == "\r\n\n" || t == "\n\r\n" || t == "\r\n\r\n" }

  /** A frame that a receiver cuts out again just as it was sent. */
  ghost predicate Sendable(frame: Frame) {
    && IsSeparator(frame.separator)
    && Boundary(frame.body).None?
    && (frame.body == "" || (Last(frame.body) != '\n' && (frame.separator[0] == '\n' ==> Last(frame.body) != '\r')))
  }

  lemma CutHasNoBoundary(s: string)
    requires Boundary(s).Some?
    ensures Boundary(FirstFrame(s).body).None?
  {
    var b := Boundary(s).value;
    if Boundary(s[..b]).Some? {
      assert s == s[..b] + s[b..];
      BoundaryStays(s[..b], s[b..]);
      assert false;
    }
  }

  lemma SeparatorIs(s: string, b: nat)
    requires b <= |s| && SeparatorLength(s, b) > 0
    ensures IsSeparator(s[b..b + SeparatorLength(s, b)])
    ensures b > 0 && SeparatorLength(s, b - 1) == 0 ==> s[b - 1] != '\n' && (s[b] == '\n' ==> s[b - 1] != '\r')
  {
    var n := SeparatorLength(s, b);
    var t := s[b..b + n];
    assert if n == 2 then t == "\n\n"
           else if n == 4 then t == "\r\n\r\n"
           else n == 3 && (t == "\r\n\n" || t == "\n\r\n");
  }

  lemma CutIsSendable(s: string)
    requires Boundary(s).Some?
    ensures Sendable(FirstFrame(s))
  {
    var b := Boundary(s).value;
    CutHasNoBoundary(s);
    SeparatorIs(s, b);
    assert FirstFrame(s).body == s[..b];
  }

  lemma SeparatorThere(f: string, t: string, rest: string)
    requires IsSeparator(t)
    ensures SeparatorLength(f + (t + rest), |f|) == |t|
  {
    var s := f + (t + rest);
    assert forall i :: 0 <= i < |t| ==> s[|f| + i] == t[i];
  }

  lemma SentIsCut(frame: Frame, rest: string)
    requires Sendable(frame)
    ensures var s := frame.body + frame.separator + rest;
      Boundary(s).Some? && FirstFrame(s) == frame && AfterFirst(s) == rest
  {
    var f, t := frame.body, frame.separator;
    var s := f + t + rest;
    Associates(f, t, rest);
    SeparatorThere(f, t, rest);
    forall k | 0 <= k < |f| ensures SeparatorLength(s, k) == 0 {
      NoEarlierSeparator(frame, rest, k);
    }
    BoundaryIs(s, |f|);
  }

  /** A separator that starts in the body and ends past it would need the body to end in a newline or in half of one. */
  lemma NoStraddling(f: string, t: string, k: nat)
    requires k < |f| && |t| >= 2 && SeparatorLength(f, k) == 0
    requires Last(f) != '\n' && (t[0] == '\n' ==> Last(f) != '\r')
    requires t[0] == '\n' || (t[0] == '\r' && t[1] == '\n')
    ensures SeparatorLength(f + t, k) == 0
  {
    assert forall i :: 0 <= i < |f| ==> (f + t)[i] == f[i];
    assert (f + t)[|f|] == t[0] && (f + t)[|f| + 1] == t[1];
  }

  lemma NoEarlierSeparator(frame: Frame, rest: string, k: nat)
    requires Sendable(frame) && k < |frame.body|
    ensures SeparatorLength(frame.body + (frame.separator + rest), k) == 0
  {
    NoStraddling(frame.body, frame.separator + rest, k);
  }

  /** The round trip is exact: cutting gives back the sent frames iff every one of them is sendable and no boundary follows. */
  lemma {:induction false} RoundTripIff(frames: seq<Frame>, rest: string)
    ensures Split(Joined(frames) + rest) == Cut(frames, rest)
      <==> (forall frame :: frame in frames ==> Sendable(frame)) && Boundary(rest).None?
  {
    var s := Joined(frames) + rest;
    if frames == [] {
      assert s == rest;
      SplitOfWhole(rest);
    } else {
      var frame, more := frames[0], Joined(frames[1..]) + rest;
      assert s == frame.body + frame.separator + more;
      assert frames == [frame] + frames[1..];
      RoundTripIff(frames[1..], rest);
      if Sendable(frame) {
        SentIsCut(frame, more);
      } else if Split(s) == Cut(frames, rest) {
        CutIsSendable(s);
        assert false;
      }
    }
  }

  lemma SplitOfWhole(s: string)
    ensures Split(s) == Cut([], s) <==> Boundary(s).None?
  {
  }

  // ----- handling frames in order, up to the first that ends the stream -----

  /** What a stream does with one frame; `Stop` carries the reason the stream ends there. */
  datatype Handled<E, X> = Skip | Deliver(event: E) | Stop(reason: X)
  datatype Outcome<E, X> = Outcome(delivered: seq<E>, stopped: Option<X>)

  function Process<E, X>(frames: seq<Frame>, handle: string -> Handled<E, X>): Outcome<E, X> {
    if frames == [] then Outcome([], None)
    else match handle(frames[0].body)
      case Stop(reason) => Outcome([], Some(reason))
      case Skip => Process(frames[1..], handle)
      case Deliver(event) =>
        var more := Process(frames[1..], handle);
        Outcome([event] + more.delivered, more.stopped)
  }

  function Then<E, X>(first: Outcome<E, X>, second: Outcome<E, X>): Outcome<E, X> {
    if first.stopped.Some? then first else Outcome(first.delivered + second.delivered, second.stopped)
  }

  /** What the first frame of a list adds to what the others do. */
  function Before<E, X>(handled: Handled<E, X>, rest: Outcome<E, X>): Outcome<E, X> {
    match handled
    case Stop(reason) => Outcome([], Some(reason))
    case Skip => rest
    case Deliver(event) => Outcome([event] + rest.delivered, rest.stopped)
  }

  lemma ProcessFirst<E, X>(frames: seq<Frame>, handle: string -> Handled<E, X>)
    requires frames != []
    ensures Process(frames, handle) == Before(handle(frames[0].body), Process(frames[1..], handle))
  {
  }

  lemma BeforeThen<E, X>(handled: Handled<E, X>, first: Outcome<E, X>, second: Outcome<E, X>)
    ensures Before(handled, Then(first, second)) == Then(Before(handled, first), second)
  {
    if handled.Deliver? {
      Associates([handled.event], first.delivered, second.delivered);
    }
  }

  lemma {:induction false} ProcessConcat<E, X>(a: seq<Frame>, b: seq<Frame>, handle: string -> Handled<E, X>)
    ensures Process(a + b, handle) == Then(Process(a, handle), Process(b, handle))
  {
    if a == [] {
      assert a + b == b;
    } else {
      ProcessConcat(a[1..], b, handle);
      assert (a + b)[1..] == a[1..] + b && (a + b)[0] == a[0];
      ProcessFirst(a, handle);
      ProcessFirst(a + b, handle);
      BeforeThen(handle(a[0].body), Process(a[1..], handle), Process(b, handle));
    }
  }

  /** One run of the drain loop: its outcome and the text it leaves in the buffer. */
  datatype Drained<E, X> = Drained(outcome: Outcome<E, X>, buffer: string)

  function Drain<E, X>(buffer: string, handle: string -> Handled<E, X>): Drained<E, X>
    decreases |buffer|
  {
    if Boundary(buffer).None? then Drained(Outcome([], None), buffer)
    else
      var rest := AfterFirst(buffer);
      match handle(FirstFrame(buffer).body)
      case Stop(reason) => Drained(Outcome([], Some(reason)), rest)
      case Skip => Drain(rest, handle)
      case Deliver(event) =>
        var more := Drain(rest, handle);
        Drained(Outcome([event] + more.outcome.delivered, more.outcome.stopped), more.buffer)
  }

  lemma {:induction false} DrainIsProcess<E, X>(buffer: string, handle: string -> Handled<E, X>)
    ensures Drain(buffer, handle).outcome == Process(Split(buffer).frames, handle)
    ensures Drain(buffer, handle).outcome.stopped.None? ==> Drain(buffer, handle).buffer == Split(buffer).rest
    decreases |buffer|
  {
    if Boundary(buffer).Some? {
      DrainIsProcess(AfterFirst(buffer), handle);
      assert Split(buffer).frames[1..] == Split(AfterFirst(buffer)).frames;
    }
  }

  /** The read loop: append a chunk, drain, and go on unless a frame ended the stream. */
  function Receive<E, X>(buffer: string, chunks: seq<string>, handle: string -> Handled<E, X>): Outcome<E, X>
    decreases chunks
  {
    if chunks == [] then Outcome([], None)
    else
      var drained := Drain(buffer + chunks[0], handle);
      Then(drained.outcome, Receive(drained.buffer, chunks[1..], handle))
  }

  function Concat(chunks: seq<string>): string {
    if chunks == [] then "" else chunks[0] + Concat(chunks[1..])
  }

  lemma ReceiveStep<E, X>(text: string, more: string, handle: string -> Handled<E, X>)
    ensures Drain(text, handle).outcome.stopped.Some? ==>
              Process(Split(text + more).frames, handle) == Drain(text, handle).outcome
    ensures Drain(text, handle).outcome.stopped.None? ==>
              && Boundary(Drain(text, handle).buffer).None?
              && Process(Split(text + more).frames, handle)
                 == Then(Drain(text, handle).outcome, Process(Split(Drain(text, handle).buffer + more).frames, handle))
  {
    DrainIsProcess(text, handle);
    SplitResumes(text, more);
    RestHasNoBoundary(text);
    ProcessConcat(Split(text).frames, Split(Split(text).rest + more).frames, handle);
  }

  lemma ReceiveNothing<E, X>(buffer: string, handle: string -> Handled<E, X>)
    requires Boundary(buffer).None?
    ensures Receive(buffer, [], handle) == Process(Split(buffer + Concat([])).frames, handle)
  {
    assert buffer + Concat([]) == buffer;
  }

  lemma ReceiveChunk<E, X>(buffer: string, chunks: seq<string>, handle: string -> Handled<E, X>)
    requires chunks != []
    ensures var drained := Drain(buffer + chunks[0], handle);
      Receive(buffer, chunks, handle) == Then(drained.outcome, Receive(drained.buffer, chunks[1..], handle))
  {
  }

  lemma ConcatChunk(buffer: string, chunks: seq<string>)
    requires chunks != []
    ensures buffer + Concat(chunks) == buffer + chunks[0] + Concat(chunks[1..])
  {
  }

  lemma {:induction false} ReceiveIsProcess<E, X>(buffer: string, chunks: seq<string>, handle: string -> Handled<E, X>)
    requires Boundary(buffer).None?
    ensures Receive(buffer, chunks, handle) == Process(Split(buffer + Concat(chunks)).frames, handle)
    decreases chunks
  {
    if chunks == [] {
      ReceiveNothing(buffer, handle);
    } else {
      var text := buffer + chunks[0];
      ConcatChunk(buffer, chunks);
      ReceiveChunk(buffer, chunks, handle);
      ReceiveStep(text, Concat(chunks[1..]), handle);
      if Drain(text, handle).outcome.stopped.None? {
        ReceiveIsProcess(Drain(text, handle).buffer, chunks[1..], handle);
      }
    }
  }

  lemma {:induction false} RestHasNoBoundary(s: string)
    ensures Boundary(Split(s).rest).None?
    decreases |s|
  {
    if Boundary(s).Some? { RestHasNoBoundary(AfterFirst(s)); }
  }

  /** Chunking is invisible: only the text decides what is delivered and whether and why a frame ends the stream. */
  lemma ChunkingIsInvisible<E, X>(a: seq<string>, b: seq<string>, handle: string -> Handled<E, X>)
    requires Concat(a) == Concat(b)
    ensures Receive("", a, handle) == Receive("", b, handle) == Process(Split(Concat(a)).frames, handle)
  {
    ReceiveIsProcess("", a, handle);
    ReceiveIsProcess("", b, handle);
    assert "" + Concat(a) == Concat(a) == "" + Concat(b);
  }

  /** Text that arrives after the end, or before it without a boundary, changes nothing. */
  lemma NothingAfterTheEnd<E, X>(a: seq<string>, b: seq<string>, handle: string -> Handled<E, X>)
    requires Receive("", a, handle).stopped.Some?
    ensures Receive("", a + b, handle) == Receive("", a, handle)
  {
    ReceiveIsProcess("", a, handle);
    ReceiveIsProcess("", a + b, handle);
    ConcatOfBoth(a, b);
    assert "" + Concat(a) == Concat(a) && "" + Concat(a + b) == Concat(a) + Concat(b);
    SplitResumes(Concat(a), Concat(b));
    ProcessConcat(Split(Concat(a)).frames, Split(Split(Concat(a)).rest + Concat(b)).frames, handle);
  }

  lemma {:induction false} ConcatOfBoth(a: seq<string>, b: seq<string>)
    ensures Concat(a + b) == Concat(a) + Concat(b)
  {
    if a == [] {
      assert a + b == b;
    } else {
      ConcatOfBoth(a[1..], b);
      assert (a + b)[1..] == a[1..] + b;
      Associates(a[0], Concat(a[1..]), Concat(b));
    }
  }
}
