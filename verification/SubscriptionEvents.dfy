/** What the two change subscriptions make of one frame. JSON text is read by an unknown function `json`. */
module SubscriptionEvents {
  import opened Options
  import opened Sequences
  import opened Strings
  import opened EventFrames

  // ----- lines -----

  function FirstNewline(s: string, i: nat): (n: nat)
    requires i <= |s|
    ensures i <= n <= |s| && (n < |s| ==> s[n] == '\n') && forall k :: i <= k < n ==> s[k] != '\n'
    decreases |s| - i
  {
    if i == |s| || s[i] == '\n' then i else FirstNewline(s, i + 1)
  }

  function WithoutReturn(s: string): string {
    if s != "" && Last(s) == '\r' then Front(s) else s
  }

  /** `split(/\r?\n/)`. */
  function Lines(s: string): seq<string>
    decreases |s|
  {
    var n := FirstNewline(s, 0);
    if n == |s| then [s] else [WithoutReturn(s[..n])] + Lines(s[n + 1..])
  }

  // ----- fields -----

  const EVENT := "event:"
  const DATA := "data:"

  function NonEmpty(): string -> bool { (line: string) => line != "" }

  function EventName(line: string): string
    requires StartsWith(line, EVENT)
  {
    Trim(line[|EVENT|..])
  }

  /** The last `event:` line names the type; without one it is `message`. */
  function EventType(lines: seq<string>): string {
    if lines == [] then "message"
    else if StartsWith(Last(lines), EVENT) then EventName(Last(lines))
    else EventType(Front(lines))
  }

  function Data(lines: seq<string>): seq<string> {
    if lines == [] then []
    else if StartsWith(Last(lines), DATA) then Data(Front(lines)) + [TrimStart(Last(lines)[|DATA|..])]
    else Data(Front(lines))
  }

  /** The type of a frame is that of its last event line, and `message` if it has none. */
  lemma {:induction false} LastEventLineCounts(lines: seq<string>, i: nat)
    requires i < |lines| && StartsWith(lines[i], EVENT) && forall k :: i < k < |lines| ==> !StartsWith(lines[k], EVENT)
    ensures EventType(lines) == Trim(lines[i][6..])
  {
    if i < |lines| - 1 { LastEventLineCounts(Front(lines), i); }
  }

  lemma {:induction false} NoEventLineIsMessage(lines: seq<string>)
    requires forall k :: 0 <= k < |lines| ==> !StartsWith(lines[k], EVENT)
    ensures EventType(lines) == "message"
  {
    if lines != [] { NoEventLineIsMessage(Front(lines)); }
  }

  function IsData(): string -> bool { (line: string) => StartsWith(line, "data:") }

  /** The data of a frame are its data lines in order, each without its name and the space behind it. */
  lemma {:induction false} DataLinesInOrder(lines: seq<string>)
    ensures |Data(lines)| == |Filter(lines, IsData())|
    ensures forall i :: 0 <= i < |Data(lines)| ==>
      StartsWith(Filter(lines, IsData())[i], "data:") && Data(lines)[i] == TrimStart(Filter(lines, IsData())[i][5..])
  {
    if lines != [] { DataLinesInOrder(Front(lines)); }
  }

  function JoinLines(lines: seq<string>): string {
    if lines == [] then ""
    else if |lines| == 1 then lines[0]
    else lines[0] + "\n" + JoinLines(lines[1..])
  }

  /** A frame of comment lines only, with at least one. */
  predicate IsComment(lines: seq<string>) {
    var nonEmpty := Filter(lines, NonEmpty());
    |nonEmpty| > 0 && forall i :: 0 <= i < |nonEmpty| ==> StartsWith(nonEmpty[i], ":")
  }

  datatype Fields = Fields(eventType: string, data: seq<string>)

  method ScanFields(lines: seq<string>) returns (r: Fields)
    ensures r == Fields(EventType(lines), Data(lines))
  {
    var eventType := "message";
    var data: seq<string> := [];
    for i := 0 to |lines|
      invariant eventType == EventType(lines[..i]) && data == Data(lines[..i])
    {
      var line := lines[i];
      assert Front(lines[..i + 1]) == lines[..i];
      if StartsWith(line, EVENT) {
        eventType := Trim(line[|EVENT|..]);
      }
      if StartsWith(line, DATA) {
        data := data + [TrimStart(line[|DATA|..])];
      }
    }
    assert lines[..|lines|] == lines;
    r := Fields(eventType, data);
  }

  /** Nothing to read, text to read as JSON, or the end of the subscription. */
  datatype Reading = Ignored | Read(text: string) | EndFrame

  function Interpret(fields: Fields): Reading {
    if fields.eventType == "complete" then EndFrame
    else if fields.eventType != "next" && fields.eventType != "message" then Ignored
    else if fields.data == [] then Ignored
    else Read(JoinLines(fields.data))
  }

  function ReadFrame(body: string): Reading { Interpret(Fields(EventType(Lines(body)), Data(Lines(body)))) }

  // ----- the repository subscription -----

  datatype Activity = Comment | Next
  datatype Reason = Complete | Failed

  /** `Malformed`: reading the text throws. */
  datatype RepositoryPayload = Malformed | Payload(errors: bool, changed: bool)

  function HandleRepositoryFrame(body: string, json: string -> RepositoryPayload): Handled<Activity, Reason> {
    if IsComment(Lines(body)) then Deliver(Comment)
    else match ReadFrame(body)
      case EndFrame => Stop(Complete)
      case Ignored => Skip
      case Read(text) =>
        if json(text).Malformed? || json(text).errors then Stop(Failed)
        else if json(text).changed then Deliver(Next) else Skip
  }

  function RepositoryHandler(json: string -> RepositoryPayload): string -> Handled<Activity, Reason> {
    (body: string) => HandleRepositoryFrame(body, json)
  }

  method ParseSubscriptionEvent(event: string, json: string -> RepositoryPayload) returns (r: Handled<Activity, Reason>)
    ensures r == HandleRepositoryFrame(event, json)
  {
    var lines := Lines(event);
    if IsComment(lines) {
      return Deliver(Comment);
    }
    var fields := ScanFields(lines);
    if fields.eventType == "complete" {
      return Stop(Complete);
    }
    if fields.eventType != "next" && fields.eventType != "message" {
      return Skip;
    }
    if |fields.data| == 0 {
      return Skip;
    }
    var result := json(JoinLines(fields.data));
    if result.Malformed? || result.errors {
      return Stop(Failed);
    }
    r := if result.changed then Deliver(Next) else Skip;
  }

  // ----- the issues subscription -----

  datatype IssuesPayload = MalformedIssues | IssuesPayload(errors: bool, repositoryId: Option<string>)

  function HandleIssuesFrame(body: string, json: string -> IssuesPayload): Handled<string, Reason> {
    if StartsWith(body, "event: complete") then Stop(Complete)
    else match ReadFrame(body)
      case EndFrame => Skip
      case Ignored => Skip
      case Read(text) =>
        if json(text).MalformedIssues? || json(text).errors then Stop(Failed)
        else if json(text).repositoryId.Some? then Deliver(json(text).repositoryId.value) else Skip
  }

  method ParseIssuesEvent(event: string, json: string -> IssuesPayload) returns (r: Handled<string, Reason>)
    ensures r == HandleIssuesFrame(event, json)
  {
    if StartsWith(event, "event: complete") {
      return Stop(Complete);
    }
    var fields := ScanFields(Lines(event));
    if fields.eventType == "complete" {
      return Skip;
    }
    if fields.eventType != "next" && fields.eventType != "message" {
      return Skip;
    }
    if |fields.data| == 0 {
      return Skip;
    }
    var result := json(JoinLines(fields.data));
    if result.MalformedIssues? || result.errors {
      return Stop(Failed);
    }
    r := if result.repositoryId.Some? then Deliver(result.repositoryId.value) else Skip;
  }

  // ----- frames as a server writes them -----

  /** `event: <name>`, a newline, and `data: <text>`. */
  function Written(name: string, text: string): string { "event: " + name + "\n" + "data: " + text }

  predicate PlainLine(s: string) { '\n' !in s && '\r' !in s }

  predicate Tight(s: string) { s == "" || (!IsSpace(s[0]) && !IsSpace(Last(s))) }

  lemma LinesOfTwo(a: string, b: string)
    requires PlainLine(a) && PlainLine(b)
    ensures Lines(a + "\n" + b) == [a, b]
  {
    var s := a + "\n" + b;
    assert s[|a|] == '\n';
    assert forall k :: 0 <= k < |a| ==> s[k] == a[k];
    assert FirstNewline(s, 0) == |a|;
    assert s[..|a|] == a && s[|a| + 1..] == b;
    assert FirstNewline(b, 0) == |b|;
    assert Lines(b) == [b];
  }

  lemma TrimTight(s: string)
    requires Tight(s)
    ensures Trim(" " + s) == s && TrimStart(" " + s) == s
  {
    assert IsSpace(' ') && (" " + s)[0] == ' ' && (" " + s)[1..] == s;
    assert TrimStart(" " + s) == TrimStart(s) == s;
    assert TrimEnd(s) == s;
  }

  lemma OtherStart(s: string, prefix: string)
    requires s != "" && prefix != "" && s[0] != prefix[0]
    ensures !StartsWith(s, prefix)
  {
    if |prefix| <= |s| {
      assert s[..|prefix|][0] == s[0];
    }
  }

  lemma EventLineIsRead(name: string)
    requires Tight(name)
    ensures var a := "event: " + name;
      StartsWith(a, EVENT) && EventName(a) == name && !StartsWith(a, DATA) && !StartsWith(a, ":")
  {
    var a := "event: " + name;
    assert a[..6] == EVENT && a[6..] == " " + name;
    TrimTight(name);
    OtherStart(a, DATA);
    OtherStart(a, ":");
  }

  lemma DataLineIsRead(text: string)
    requires Tight(text)
    ensures var b := "data: " + text;
      StartsWith(b, DATA) && TrimStart(b[|DATA|..]) == text && !StartsWith(b, EVENT)
  {
    var b := "data: " + text;
    assert b[..5] == DATA && b[5..] == " " + text;
    TrimTight(text);
    OtherStart(b, EVENT);
  }

  /** What is written is read back: the name as the event type and the text as the JSON to read. */
  lemma WrittenIsRead(name: string, text: string)
    requires PlainLine(name) && Tight(name) && PlainLine(text) && Tight(text)
    ensures Lines(Written(name, text)) == ["event: " + name, "data: " + text]
    ensures EventType(Lines(Written(name, text))) == name && Data(Lines(Written(name, text))) == [text]
    ensures !IsComment(Lines(Written(name, text)))
  {
    var a, b := "event: " + name, "data: " + text;
    assert Written(name, text) == a + "\n" + b;
    LinesOfTwo(a, b);
    EventLineIsRead(name);
    DataLineIsRead(text);
    assert Front([a, b]) == [a] && Front([a]) == [];
    assert Data([a]) == [];
    assert Filter([a, b], NonEmpty()) == [a, b];
  }

  /** A written `next` frame delivers exactly what its JSON says, and a written `complete` frame ends the stream. */
  lemma WrittenFrameIsHandled(name: string, text: string, json: string -> RepositoryPayload)
    requires PlainLine(name) && Tight(name) && PlainLine(text) && Tight(text)
    ensures HandleRepositoryFrame(Written(name, text), json) ==
      if name == "complete" then Stop(Complete)
      else if name != "next" && name != "message" then Skip
      else if json(text).Malformed? || json(text).errors then Stop(Failed)
      else if json(text).changed then Deliver(Next) else Skip
  {
    WrittenIsRead(name, text);
    assert JoinLines([text]) == text;
  }

  lemma StartOfWritten(name: string, text: string)
    requires '\n' !in name
    ensures StartsWith(Written(name, text), "event: complete") <==> StartsWith(name, "complete")
  {
    var body, wanted := Written(name, text), "event: complete";
    assert forall i :: 0 <= i < |name| ==> body[7 + i] == name[i];
    assert body[7 + |name|] == '\n' && forall i :: 0 <= i < 8 ==> wanted[7 + i] == "complete"[i] != '\n';
    if StartsWith(body, wanted) {
      assert forall i :: 0 <= i < 15 ==> body[i] == body[..15][i] == wanted[i];
      assert |name| >= 8;
      assert forall i :: 0 <= i < 8 ==> name[i] == wanted[7 + i];
      assert name[..8] == "complete";
    } else if StartsWith(name, "complete") {
      assert forall i :: 0 <= i < 8 ==> name[i] == name[..8][i] == "complete"[i];
      assert forall i :: 0 <= i < 15 ==> body[i] == wanted[i];
    }
  }

  /**
   * The two streams recognise the end differently: one reads the event type, the other looks at how the frame starts.
   * On written frames they agree unless the type only begins with `complete`.
   */
  lemma StopRulesAgreeIff(name: string, text: string, json: string -> RepositoryPayload, issues: string -> IssuesPayload)
    requires PlainLine(name) && Tight(name) && PlainLine(text) && Tight(text)
    ensures (HandleRepositoryFrame(Written(name, text), json) == Stop(Complete)
             <==> HandleIssuesFrame(Written(name, text), issues) == Stop(Complete))
      <==> (StartsWith(name, "complete") ==> name == "complete")
  {
    WrittenFrameIsHandled(name, text, json);
    StartOfWritten(name, text);
  }

  /** Without the space after the colon only the repository stream ends. */
  lemma StopRulesDisagree(json: string -> RepositoryPayload, issues: string -> IssuesPayload)
    ensures HandleRepositoryFrame("event:complete", json) == Stop(Complete)
    ensures HandleIssuesFrame("event:complete", issues) == Skip
  {
    var body := "event:complete";
    assert FirstNewline(body, 0) == |body|;
    assert Lines(body) == [body];
    assert body[6..] == "complete";
    assert Tight("complete");
    assert EventType([body]) == "complete";
    assert Filter([body], NonEmpty()) == [body];
  }

  /** On the issues stream a written frame of another type delivers the repository its JSON names. */
  lemma WrittenIssuesFrameIsHandled(name: string, text: string, json: string -> IssuesPayload)
    requires PlainLine(name) && Tight(name) && PlainLine(text) && Tight(text)
    ensures HandleIssuesFrame(Written(name, text), json) ==
      if StartsWith(name, "complete") then Stop(Complete)
      else if name != "next" && name != "message" then Skip
      else if json(text).MalformedIssues? || json(text).errors then Stop(Failed)
      else if json(text).repositoryId.Some? then Deliver(json(text).repositoryId.value) else Skip
  {
    WrittenIsRead(name, text);
    StartOfWritten(name, text);
    assert JoinLines([text]) == text;
  }

  // ----- comment frames, the server's heartbeats -----

  /** A comment line without its colon, and whether the newline before the next line has a carriage return. */
  datatype CommentLine = CommentLine(text: string, carriage: bool)

  function NewlineAfter(c: CommentLine): string { if c.carriage then "\r\n" else "\n" }

  /** Comment lines as the text of one frame. */
  function CommentText(cs: seq<CommentLine>): string
    requires cs != []
  {
    if |cs| == 1 then ":" + cs[0].text else ":" + cs[0].text + NewlineAfter(cs[0]) + CommentText(cs[1..])
  }

  predicate PlainComments(cs: seq<CommentLine>) {
    cs != [] && forall i :: 0 <= i < |cs| ==> PlainLine(cs[i].text)
  }

  function WithColons(cs: seq<CommentLine>): (r: seq<string>)
    ensures |r| == |cs| && forall i :: 0 <= i < |cs| ==> r[i] == ":" + cs[i].text
  {
    seq(|cs|, i requires 0 <= i < |cs| => ":" + cs[i].text)
  }

  lemma LineOff(line: string, c: CommentLine, rest: string)
    requires PlainLine(line)
    ensures Lines(line + NewlineAfter(c) + rest) == [line] + Lines(rest)
  {
    var s, n := line + NewlineAfter(c) + rest, |line| + |NewlineAfter(c)| - 1;
    assert s[n] == '\n' && s[n + 1..] == rest;
    assert forall k :: 0 <= k < |line| ==> s[k] == line[k];
    assert FirstNewline(s, 0) == n;
    assert s[..n] == if c.carriage then line + "\r" else line;
    assert Front(line + "\r") == line;
  }

  lemma OneLine(line: string)
    requires PlainLine(line)
    ensures Lines(line) == [line]
  {
    assert FirstNewline(line, 0) == |line|;
  }

  /** Joining data lines loses nothing: the joined text has exactly those lines. */
  lemma {:induction false} JoinedLinesSplit(lines: seq<string>)
    requires lines != [] && forall i :: 0 <= i < |lines| ==> PlainLine(lines[i])
    ensures Lines(JoinLines(lines)) == lines
  {
    if |lines| == 1 {
      OneLine(lines[0]);
    } else {
      JoinedLinesSplit(lines[1..]);
      LineOff(lines[0], CommentLine("", false), JoinLines(lines[1..]));
    }
  }

  lemma {:induction false} CommentLines(cs: seq<CommentLine>)
    requires PlainComments(cs)
    ensures Lines(CommentText(cs)) == WithColons(cs)
  {
    var line := ":" + cs[0].text;
    if |cs| == 1 {
      OneLine(line);
    } else {
      CommentLines(cs[1..]);
      LineOff(line, cs[0], CommentText(cs[1..]));
    }
  }

  /** A heartbeat is reported as a comment by the repository stream and passed over by the issues stream. */
  lemma CommentIsDelivered(cs: seq<CommentLine>, json: string -> RepositoryPayload, issues: string -> IssuesPayload)
    requires PlainComments(cs)
    ensures HandleRepositoryFrame(CommentText(cs), json) == Deliver(Comment)
    ensures HandleIssuesFrame(CommentText(cs), issues) == Skip
  {
    var body := CommentText(cs);
    CommentLines(cs);
    FilterAll(WithColons(cs), NonEmpty());
    forall i | 0 <= i < |cs| ensures StartsWith(WithColons(cs)[i], ":") {
    }
    OtherStart(body, "event: complete");
    NothingInComments(WithColons(cs));
  }

  lemma {:induction false} NothingInComments(lines: seq<string>)
    requires forall i :: 0 <= i < |lines| ==> lines[i] != "" && lines[i][0] == ':'
    ensures EventType(lines) == "message" && Data(lines) == []
  {
    if lines != [] {
      NothingInComments(Front(lines));
      OtherStart(Last(lines), EVENT);
      OtherStart(Last(lines), DATA);
    }
  }

  // ----- heartbeats as frames of a stream -----

  lemma CommentStart(cs: seq<CommentLine>)
    requires PlainComments(cs)
    ensures CommentText(cs) != "" && CommentText(cs)[0] == ':'
    ensures Last(CommentText(cs)) != '\n' && Last(CommentText(cs)) != '\r'
  {
    if |cs| > 1 {
      CommentStart(cs[1..]);
    }
  }

  lemma NoSeparatorAtStart(line: string, c: CommentLine, rest: string, k: nat)
    requires PlainLine(line) && rest != "" && rest[0] == ':' && k < |line| + |NewlineAfter(c)|
    ensures SeparatorLength(line + NewlineAfter(c) + rest, k) == 0
  {
    var s := line + NewlineAfter(c) + rest;
    assert forall i :: 0 <= i < |line| ==> s[i] == line[i];
    assert s[|line| + |NewlineAfter(c)|] == ':';
  }

  lemma SeparatorShifts(head: string, rest: string, k: nat)
    ensures SeparatorLength(head + rest, |head| + k) == SeparatorLength(rest, k)
  {
    assert forall i :: 0 <= i < |rest| ==> (head + rest)[|head| + i] == rest[i];
  }

  lemma {:induction false} NoSeparatorIn(cs: seq<CommentLine>, k: nat)
    requires PlainComments(cs)
    ensures SeparatorLength(CommentText(cs), k) == 0
  {
    var line := ":" + cs[0].text;
    if |cs| == 1 {
      assert forall i :: 0 <= i < |line| ==> line[i] != '\n' && line[i] != '\r';
    } else {
      var rest, head := CommentText(cs[1..]), line + NewlineAfter(cs[0]);
      CommentStart(cs[1..]);
      if k < |head| {
        NoSeparatorAtStart(line, cs[0], rest, k);
      } else {
        NoSeparatorIn(cs[1..], k - |head|);
        SeparatorShifts(head, rest, k - |head|);
      }
    }
  }

  /** A frame of comment lines only. */
  ghost predicate IsHeartbeat(frame: Frame) {
    IsSeparator(frame.separator) && exists cs :: PlainComments(cs) && frame.body == CommentText(cs)
  }

  lemma HeartbeatIsSendable(frame: Frame)
    requires IsHeartbeat(frame)
    ensures Sendable(frame)
  {
    var cs :| PlainComments(cs) && frame.body == CommentText(cs);
    CommentStart(cs);
    if Boundary(frame.body).Some? {
      NoSeparatorIn(cs, Boundary(frame.body).value);
    }
  }

  function Comments(n: nat): (r: seq<Activity>)
    ensures |r| == n
  {
    seq(n, _ => Comment)
  }

  lemma {:induction false} HeartbeatsAreDelivered(frames: seq<Frame>, json: string -> RepositoryPayload)
    requires forall frame :: frame in frames ==> IsHeartbeat(frame)
    ensures Process(frames, RepositoryHandler(json)) == Outcome(Comments(|frames|), None)
  {
    if frames != [] {
      assert frames[0] in frames;
      var cs :| PlainComments(cs) && frames[0].body == CommentText(cs);
      CommentIsDelivered(cs, json, _ => MalformedIssues);
      HeartbeatsAreDelivered(frames[1..], json);
      assert [Comment] + Comments(|frames| - 1) == Comments(|frames|);
    }
  }
}
