/**
 * The CI gate status story: which run is told in which role, and where earlier runs are listed.
 * Wording is left to the page; classifying a run, ordering two runs and reading a time are unknown functions.
 */
module CiGateStory {
  import opened Options
  import opened Sequences
  import opened Strings

  datatype Classification = Failure | Success | Pending | NonDecisive

  datatype Run = Run(
    runIdentity: string, htmlUrl: Option<string>, rawStatus: Option<string>, rawConclusion: Option<string>,
    createdAt: Option<string>, updatedAt: Option<string>, orderKey: Option<string>, earlyJobFailure: bool)

  datatype FailingRun = FailingRun(runIdentity: string, htmlUrl: Option<string>, orderKey: Option<string>, detectedAt: Option<string>)

  datatype Definition = Definition(
    identity: string, displayLabel: string, failureLatched: bool, diagnostic: Option<string>,
    latestRun: Option<Run>, failingRun: Option<FailingRun>)

  datatype FailedRun = FailedRun(displayLabel: string, htmlUrl: Option<string>)

  datatype Incident = Incident(id: string, openedAt: string, resolvedAt: Option<string>, failedRuns: seq<FailedRun>)

  datatype Status = Disabled | Open | Closed | Degraded

  datatype Input = Input(
    status: Status, diagnostic: Option<string>, definitions: seq<Definition>,
    activeIncidentOpenedAt: Option<string>, incidentHistory: seq<Incident>)

  /** The unknown functions: the classifier, the order of two order keys, and `Date.parse`. */
  datatype Forge = Forge(classify: Run -> Classification, compare: (string, string) -> int, parse: string -> Option<int>)

  datatype Role = FailingCi | RecoveryVerification
  datatype Link = Link(role: Role, title: string, htmlUrl: Option<string>)
  datatype Note = Note(title: string, diagnostic: string)
  datatype Outstanding = LatchNotCleared(title: string) | SuccessNotCleared(title: string) | InProgress(title: string)
  datatype EarlierRun = EarlierRun(title: string, htmlUrl: Option<string>, occurredAt: Option<string>, at: Option<int>)

  // ----- identities, texts and times -----

  function IndexOfColon(s: string, i: nat): (n: nat)
    requires i <= |s|
    ensures i <= n <= |s|
    decreases |s| - i
  {
    if i == |s| || s[i] == ':' then i else IndexOfColon(s, i + 1)
  }

  /** What precedes the first colon: attempts of one run share it. */
  function RunId(identity: string): string { identity[..IndexOfColon(identity, 0)] }

  predicate IsSameObservedRun(left: string, right: string) { left == right || RunId(left) == RunId(right) }

  predicate HasText(value: Option<string>) { value.Some? && Trim(value.value) != "" }

  function ParseTime(iso: Option<string>, forge: Forge): Option<int> {
    if HasText(iso) then forge.parse(iso.value) else None
  }

  function LabelOf(d: Definition): string { if HasText(Some(d.displayLabel)) then d.displayLabel else d.identity }

  function LatchIsNewer(failing: Option<FailingRun>, latest: Run, forge: Forge): Option<bool> {
    if failing.None? || !HasText(failing.value.orderKey) || !HasText(latest.orderKey) then None
    else Some(forge.compare(failing.value.orderKey.value, latest.orderKey.value) > 0)
  }

  predicate PredatesIncident(run: Run, openedAt: Option<string>, forge: Forge) {
    var runAt, openedTime := ParseTime(run.createdAt, forge), ParseTime(openedAt, forge);
    runAt.Some? && openedTime.Some? && runAt.value < openedTime.value
  }

  predicate WindowContains(incident: Incident, at: int, forge: Forge) {
    var openedTime, resolvedTime := ParseTime(Some(incident.openedAt), forge), ParseTime(incident.resolvedAt, forge);
    openedTime.Some? && openedTime.value <= at && (resolvedTime.None? || at <= resolvedTime.value)
  }

  // ----- what is told of one definition -----

  /** How the latest run of a definition relates to its latched failure. */
  datatype Verdict = Silent | LatchedRunSucceeded | EarlierSuccess | UnclearedSuccess | StillPending

  predicate IsLatchedRun(d: Definition) {
    && d.failureLatched && d.failingRun.Some? && HasText(Some(d.failingRun.value.runIdentity))
    && d.latestRun.Some? && IsSameObservedRun(d.latestRun.value.runIdentity, d.failingRun.value.runIdentity)
  }

  /** Proof that the latest run came before the latched failure; a missing key or time proves nothing. */
  predicate ProvenEarlier(d: Definition, input: Input, forge: Forge)
    requires d.latestRun.Some?
  {
    LatchIsNewer(d.failingRun, d.latestRun.value, forge) == Some(true)
    || PredatesIncident(d.latestRun.value, input.activeIncidentOpenedAt, forge)
  }

  function VerdictOf(d: Definition, input: Input, forge: Forge): Verdict {
    if d.latestRun.None? || !HasText(Some(d.latestRun.value.runIdentity)) || !d.failureLatched then Silent
    else
      var kind := forge.classify(d.latestRun.value);
      if IsLatchedRun(d) then (if kind == Success then LatchedRunSucceeded else Silent)
      else if input.status != Closed then Silent
      else match kind
        case Success => if ProvenEarlier(d, input, forge) then EarlierSuccess else UnclearedSuccess
        case Pending => if LatchIsNewer(d.failingRun, d.latestRun.value, forge) == Some(true) then Silent else StillPending
        case _ => Silent
  }

  function FailingLinks(d: Definition): seq<Link> {
    if !d.failureLatched then []
    else [Link(FailingCi, LabelOf(d), if d.failingRun.Some? && HasText(d.failingRun.value.htmlUrl) then d.failingRun.value.htmlUrl else None)]
  }

  function RecoveryLinks(d: Definition, input: Input, forge: Forge): seq<Link> {
    match VerdictOf(d, input, forge)
    case UnclearedSuccess => [Link(RecoveryVerification, LabelOf(d), d.latestRun.value.htmlUrl)]
    case StillPending => [Link(RecoveryVerification, LabelOf(d), d.latestRun.value.htmlUrl)]
    case _ => []
  }

  function OutstandingOf(d: Definition, input: Input, forge: Forge): seq<Outstanding> {
    match VerdictOf(d, input, forge)
    case LatchedRunSucceeded => [LatchNotCleared(LabelOf(d))]
    case UnclearedSuccess => [SuccessNotCleared(LabelOf(d))]
    case StillPending => [InProgress(LabelOf(d))]
    case _ => []
  }

  function EarlierOf(d: Definition, input: Input, forge: Forge): seq<EarlierRun> {
    if VerdictOf(d, input, forge) != EarlierSuccess then []
    else
      var latest := d.latestRun.value;
      [EarlierRun(LabelOf(d), latest.htmlUrl, latest.createdAt, ParseTime(latest.createdAt, forge))]
  }

  function NotesOf(d: Definition, input: Input): seq<Note> {
    if HasText(d.diagnostic) && !d.failureLatched && d.diagnostic != input.diagnostic && input.status != Open
    then [Note(LabelOf(d), d.diagnostic.value)] else []
  }

  /** Everything the loop has collected. */
  datatype Collected = Collected(links: seq<Link>, notes: seq<Note>, outstanding: seq<Outstanding>, earlier: seq<EarlierRun>)

  function Collect(definitions: seq<Definition>, input: Input, forge: Forge): Collected {
    if definitions == [] then Collected([], [], [], [])
    else
      var before, d := Collect(Front(definitions), input, forge), Last(definitions);
      Collected(before.links + FailingLinks(d) + RecoveryLinks(d, input, forge), before.notes + NotesOf(d, input),
                before.outstanding + OutstandingOf(d, input, forge), before.earlier + EarlierOf(d, input, forge))
  }

  lemma CollectSnoc(definitions: seq<Definition>, d: Definition, input: Input, forge: Forge)
    ensures var before := Collect(definitions, input, forge);
      Collect(definitions + [d], input, forge) ==
        Collected(before.links + FailingLinks(d) + RecoveryLinks(d, input, forge), before.notes + NotesOf(d, input),
                  before.outstanding + OutstandingOf(d, input, forge), before.earlier + EarlierOf(d, input, forge))
  {
    assert Front(definitions + [d]) == definitions;
  }

  method CollectRuns(input: Input, forge: Forge) returns (r: Collected)
    ensures r == Collect(input.definitions, input, forge)
  {
    var runs: seq<Link> := [];
    var notes: seq<Note> := [];
    var outstanding: seq<Outstanding> := [];
    var earlierRuns: seq<EarlierRun> := [];
    for i := 0 to |input.definitions|
      invariant Collected(runs, notes, outstanding, earlierRuns) == Collect(input.definitions[..i], input, forge)
    {
      var d := input.definitions[i];
      assert input.definitions[..i + 1] == input.definitions[..i] + [d];
      CollectSnoc(input.definitions[..i], d, input, forge);
      var failing := TellFailure(d);
      var noted := TellDiagnostic(d, input);
      var more, told, earlier := TellLatest(d, LabelOf(d), input, forge);
      runs, notes := runs + failing + more, notes + noted;
      outstanding, earlierRuns := outstanding + told, earlierRuns + earlier;
    }
    assert input.definitions[..|input.definitions|] == input.definitions;
    r := Collected(runs, notes, outstanding, earlierRuns);
  }

  /** The part of the loop body that links the latched failure. */
  method TellFailure(d: Definition) returns (runs: seq<Link>)
    ensures runs == FailingLinks(d)
  {
    runs := [];
    if d.failureLatched {
      var failing := d.failingRun;
      runs := [Link(FailingCi, LabelOf(d), if failing.Some? && HasText(failing.value.htmlUrl) then failing.value.htmlUrl else None)];
    }
  }

  /** The part of the loop body that notes a diagnostic. */
  method TellDiagnostic(d: Definition, input: Input) returns (notes: seq<Note>)
    ensures notes == NotesOf(d, input)
  {
    notes := [];
    if HasText(d.diagnostic) && !d.failureLatched && d.diagnostic != input.diagnostic && input.status != Open {
      notes := [Note(LabelOf(d), d.diagnostic.value)];
    }
  }

  /** The part of the loop body that judges the latest run. */
  method TellLatest(d: Definition, title: string, input: Input, forge: Forge)
    returns (runs: seq<Link>, outstanding: seq<Outstanding>, earlierRuns: seq<EarlierRun>)
    requires title == LabelOf(d)
    ensures runs == RecoveryLinks(d, input, forge)
    ensures outstanding == OutstandingOf(d, input, forge)
    ensures earlierRuns == EarlierOf(d, input, forge)
  {
    runs, outstanding, earlierRuns := [], [], [];
    if d.latestRun.None? || !HasText(Some(d.latestRun.value.runIdentity)) { return; }
    var latest := d.latestRun.value;
    var sameAsLatch := d.failureLatched && d.failingRun.Some? && HasText(Some(d.failingRun.value.runIdentity))
      && IsSameObservedRun(latest.runIdentity, d.failingRun.value.runIdentity);
    if sameAsLatch {
      if d.failureLatched && forge.classify(latest) == Success {
        outstanding := [LatchNotCleared(title)];
      }
      return;
    }
    if !d.failureLatched || input.status != Closed { return; }
    var kind := forge.classify(latest);
    var newerLatch := LatchIsNewer(d.failingRun, latest, forge);
    var olderThanIncident := PredatesIncident(latest, input.activeIncidentOpenedAt, forge);
    if kind == Success && (newerLatch == Some(true) || olderThanIncident) {
      earlierRuns := [EarlierRun(title, latest.htmlUrl, latest.createdAt, ParseTime(latest.createdAt, forge))];
      return;
    }
    if kind == Success {
      outstanding := [SuccessNotCleared(title)];
      runs := [Link(RecoveryVerification, title, latest.htmlUrl)];
      return;
    }
    if kind == Pending && newerLatch != Some(true) {
      outstanding := [InProgress(title)];
      runs := [Link(RecoveryVerification, title, latest.htmlUrl)];
    }
  }

  // ----- history -----

  datatype HistoryRun = FailingEntry(displayLabel: string, htmlUrl: Option<string>) | SuccessfulEntry(title: string, htmlUrl: Option<string>)
  datatype HistoryEntry = HistoryEntry(incident: Incident, runs: seq<HistoryRun>)

  datatype View = DisabledView | StatusView(
    runs: seq<Link>, notes: seq<Note>, outstanding: seq<Outstanding>, history: seq<HistoryEntry>, earlierRuns: seq<EarlierRun>)

  predicate Attached(run: EarlierRun, incident: Incident, forge: Forge) {
    run.at.Some? && WindowContains(incident, run.at.value, forge)
  }

  function AttachedTo(incident: Incident, forge: Forge): EarlierRun -> bool {
    (run: EarlierRun) => Attached(run, incident, forge)
  }

  function Unattached(incidents: seq<Incident>, forge: Forge): EarlierRun -> bool {
    (run: EarlierRun) => forall i :: 0 <= i < |incidents| ==> !Attached(run, incidents[i], forge)
  }

  function FailingEntries(): FailedRun -> HistoryRun { (run: FailedRun) => FailingEntry(run.displayLabel, run.htmlUrl) }

  function SuccessfulEntries(): EarlierRun -> HistoryRun { (run: EarlierRun) => SuccessfulEntry(run.title, run.htmlUrl) }

  function HistoryOf(incident: Incident, earlier: seq<EarlierRun>, forge: Forge): HistoryEntry {
    HistoryEntry(incident, Mapped(incident.failedRuns, FailingEntries())
                           + Mapped(Filter(earlier, AttachedTo(incident, forge)), SuccessfulEntries()))
  }

  /** The specification of the view, with each earlier run placed by its own time. */
  function Story(input: Input, forge: Forge): View {
    if input.status == Disabled then DisabledView
    else
      var c := Collect(input.definitions, input, forge);
      StatusView(c.links, c.notes, c.outstanding,
                 seq(|input.incidentHistory|, i requires 0 <= i < |input.incidentHistory| =>
                   HistoryOf(input.incidentHistory[i], c.earlier, forge)),
                 Filter(c.earlier, Unattached(input.incidentHistory, forge)))
  }

  /** Every time at which some earlier run falls into some incident window. */
  function AttachedTimes(incidents: seq<Incident>, earlier: seq<EarlierRun>, forge: Forge): set<int> {
    set i, k | 0 <= i < |incidents| && 0 <= k < |earlier| && Attached(earlier[k], incidents[i], forge) :: earlier[k].at.value
  }

  function NotAtTimes(times: set<int>): EarlierRun -> bool {
    (run: EarlierRun) => run.at.None? || run.at.value !in times
  }

  /** The page filters by time, which comes to filtering run by run: a window looks at nothing but the time. */
  lemma TimesDecide(incidents: seq<Incident>, earlier: seq<EarlierRun>, forge: Forge)
    ensures Filter(earlier, NotAtTimes(AttachedTimes(incidents, earlier, forge))) == Filter(earlier, Unattached(incidents, forge))
  {
    var times := AttachedTimes(incidents, earlier, forge);
    forall run | run in earlier ensures NotAtTimes(times)(run) == Unattached(incidents, forge)(run) {
      var k :| 0 <= k < |earlier| && earlier[k] == run;
      if run.at.Some? && run.at.value in times {
        var i, j :| 0 <= i < |incidents| && 0 <= j < |earlier| && Attached(earlier[j], incidents[i], forge)
          && earlier[j].at.value == run.at.value;
        assert Attached(run, incidents[i], forge);
      }
      if i :| 0 <= i < |incidents| && Attached(run, incidents[i], forge) {
        assert earlier[k].at.value in times;
      }
    }
    FilterAgree(earlier, NotAtTimes(times), Unattached(incidents, forge));
  }

  method PresentCiGateStory(input: Input, forge: Forge) returns (view: View)
    ensures view == Story(input, forge)
  {
    if input.status == Disabled { return DisabledView; }
    var c := CollectRuns(input, forge);
    var history := seq(|input.incidentHistory|, i requires 0 <= i < |input.incidentHistory| =>
      HistoryOf(input.incidentHistory[i], c.earlier, forge));
    var attachedTimes := AttachedTimes(input.incidentHistory, c.earlier, forge);
    TimesDecide(input.incidentHistory, c.earlier, forge);
    view := StatusView(c.links, c.notes, c.outstanding, history, Filter(c.earlier, NotAtTimes(attachedTimes)));
  }

  // ----- what the story guarantees -----

  /** `identity` is the bare id of `run`, or that id with an attempt behind a colon. */
  predicate Names(identity: string, run: string) {
    ':' !in run && (identity == run || run + ":" <= identity)
  }

  /** The search ends at the first colon from `i` on, or at the end of the text. */
  lemma {:induction false} ColonIsFirst(s: string, i: nat, n: nat)
    requires i <= n <= |s|
    ensures IndexOfColon(s, i) == n <==> ':' !in s[i..n] && (n < |s| ==> s[n] == ':')
    decreases |s| - i
  {
    if i < n {
      ColonIsFirst(s, i + 1, n);
      assert s[i..n] == [s[i]] + s[i + 1..n];
    } else {
      assert s[i..n] == [];
    }
  }

  /** Every identity names exactly one run: the whole text if it has no colon, else what precedes the first one. */
  lemma RunIdIff(identity: string, run: string)
    ensures Names(identity, run) <==> run == RunId(identity)
  {
    var n := IndexOfColon(identity, 0);
    ColonIsFirst(identity, 0, n);
    assert identity[0..n] == RunId(identity);
    if Names(identity, run) {
      ColonIsFirst(identity, 0, |run|);
      assert identity[0..|run|] == run;
    }
  }

  /** Two identities are one observed run exactly when they are texts of one run, whatever their attempts. */
  lemma SameRunIff(left: string, right: string)
    ensures IsSameObservedRun(left, right) <==> exists run :: Names(left, run) && Names(right, run)
  {
    RunIdIff(left, RunId(left));
    RunIdIff(right, RunId(left));
    forall run ensures Names(left, run) ==> run == RunId(left) {
      RunIdIff(left, run);
    }
  }

  /** Two attempts belong to one observed run exactly when their run ids are the same. */
  lemma AttemptsAreTheSameRun(run: string, other: string, attempt: string, next: string)
    requires ':' !in run && ':' !in other
    ensures IsSameObservedRun(run + ":" + attempt, other + ":" + next) <==> run == other
  {
    RunIdIff(run + ":" + attempt, run);
    RunIdIff(other + ":" + next, other);
  }

  function InRole(role: Role): Link -> bool { (link: Link) => link.role == role }

  function IsLatched(): Definition -> bool { (d: Definition) => d.failureLatched }

  lemma LinksOfOne(d: Definition, input: Input, forge: Forge)
    ensures Filter(FailingLinks(d), InRole(FailingCi)) == FailingLinks(d) && Filter(FailingLinks(d), InRole(RecoveryVerification)) == []
    ensures Filter(RecoveryLinks(d, input, forge), InRole(FailingCi)) == []
    ensures Filter(RecoveryLinks(d, input, forge), InRole(RecoveryVerification)) == RecoveryLinks(d, input, forge)
  {
  }

  lemma FailingLinksStep(links: seq<Link>, d: Definition, input: Input, forge: Forge)
    ensures Filter(links + FailingLinks(d) + RecoveryLinks(d, input, forge), InRole(FailingCi))
      == Filter(links, InRole(FailingCi)) + FailingLinks(d)
  {
    LinksOfOne(d, input, forge);
    FilterConcat(links + FailingLinks(d), RecoveryLinks(d, input, forge), InRole(FailingCi));
    FilterConcat(links, FailingLinks(d), InRole(FailingCi));
  }

  lemma FailingOfSnoc(definitions: seq<Definition>, d: Definition)
    ensures FailingOf(Filter(definitions + [d], IsLatched())) == FailingOf(Filter(definitions, IsLatched())) + FailingLinks(d)
  {
    FilterSnoc(definitions, d, IsLatched());
    var latched := Filter(definitions, IsLatched());
    assert Front(latched + [d]) == latched;
  }

  lemma OneMoreFailingLink(definitions: seq<Definition>, d: Definition, input: Input, forge: Forge)
    requires Filter(Collect(definitions, input, forge).links, InRole(FailingCi)) == FailingOf(Filter(definitions, IsLatched()))
    ensures Filter(Collect(definitions + [d], input, forge).links, InRole(FailingCi)) == FailingOf(Filter(definitions + [d], IsLatched()))
  {
    CollectSnoc(definitions, d, input, forge);
    FailingLinksStep(Collect(definitions, input, forge).links, d, input, forge);
    FailingOfSnoc(definitions, d);
  }

  /** Exactly one failing link for each latched definition, in order, whatever the status. */
  lemma {:induction false} OneFailingLinkEach(definitions: seq<Definition>, input: Input, forge: Forge)
    ensures Filter(Collect(definitions, input, forge).links, InRole(FailingCi)) == FailingOf(Filter(definitions, IsLatched()))
  {
    if definitions != [] {
      var front, d := Front(definitions), Last(definitions);
      assert definitions == front + [d];
      OneFailingLinkEach(front, input, forge);
      OneMoreFailingLink(front, d, input, forge);
    }
  }

  function FailingOf(latched: seq<Definition>): seq<Link> {
    if latched == [] then [] else FailingOf(Front(latched)) + FailingLinks(Last(latched))
  }

  /**
   * A latest run is told at most once: as a recovery link or as an earlier run, never both, and neither unless the gate
   * is closed on another, latched failure. A success under such a latch is always told, and it counts as earlier only on proof.
   */
  lemma LatestRunToldOnce(d: Definition, input: Input, forge: Forge)
    ensures |RecoveryLinks(d, input, forge)| + |EarlierOf(d, input, forge)| <= 1
    ensures RecoveryLinks(d, input, forge) != [] || EarlierOf(d, input, forge) != [] ==>
              d.failureLatched && input.status == Closed && !IsLatchedRun(d)
    ensures d.latestRun.Some? && HasText(Some(d.latestRun.value.runIdentity)) && forge.classify(d.latestRun.value) == Success
            && d.failureLatched && !IsLatchedRun(d) && input.status == Closed ==>
              if ProvenEarlier(d, input, forge) then |EarlierOf(d, input, forge)| == 1 && OutstandingOf(d, input, forge) == []
              else |RecoveryLinks(d, input, forge)| == 1 && OutstandingOf(d, input, forge) == [SuccessNotCleared(LabelOf(d))]
    ensures RecoveryLinks(d, input, forge) != [] ==> OutstandingOf(d, input, forge) != []
  {
  }

  /** Without both order keys and without both times no success counts as earlier. */
  lemma NoProofNoEarlierRun(d: Definition, input: Input, forge: Forge)
    requires d.latestRun.Some?
    requires d.failingRun.None? || !HasText(d.failingRun.value.orderKey) || !HasText(d.latestRun.value.orderKey)
    requires ParseTime(d.latestRun.value.createdAt, forge).None? || ParseTime(input.activeIncidentOpenedAt, forge).None?
    ensures EarlierOf(d, input, forge) == []
  {
  }

  /** The successful runs shown in the history entry of one incident. */
  function ShownIn(incident: Incident, earlier: seq<EarlierRun>, forge: Forge): seq<EarlierRun> {
    Filter(earlier, AttachedTo(incident, forge))
  }

  /**
   * Every earlier run is shown: in each incident window that contains it, or in the list of earlier runs;
   * never in both and never in neither.
   */
  lemma EarlierRunsArePartitioned(input: Input, forge: Forge, run: EarlierRun)
    requires input.status != Disabled && run in Collect(input.definitions, input, forge).earlier
    ensures var view := Story(input, forge);
      var earlier := Collect(input.definitions, input, forge).earlier;
      && |view.history| == |input.incidentHistory|
      && (forall i :: 0 <= i < |view.history| ==>
            && view.history[i].runs == Mapped(input.incidentHistory[i].failedRuns, FailingEntries())
                                       + Mapped(ShownIn(input.incidentHistory[i], earlier, forge), SuccessfulEntries())
            && (run in ShownIn(input.incidentHistory[i], earlier, forge) <==> Attached(run, input.incidentHistory[i], forge)))
      && (run in view.earlierRuns <==> !exists i :: 0 <= i < |input.incidentHistory| && run in ShownIn(input.incidentHistory[i], earlier, forge))
  {
    var earlier := Collect(input.definitions, input, forge).earlier;
    forall i | 0 <= i < |input.incidentHistory|
      ensures run in ShownIn(input.incidentHistory[i], earlier, forge) <==> Attached(run, input.incidentHistory[i], forge)
    {
      FilterMembers(earlier, AttachedTo(input.incidentHistory[i], forge));
    }
    FilterMembers(earlier, Unattached(input.incidentHistory, forge));
  }

  /** A diagnostic is noted once, exactly for a definition without a latched failure, unless the gate is open or says the same. */
  lemma DiagnosticNotedIff(d: Definition, input: Input)
    ensures NotesOf(d, input) ==
      if d.diagnostic.Some? && Trim(d.diagnostic.value) != "" && !d.failureLatched
         && input.status in {Disabled, Closed, Degraded} && input.diagnostic != d.diagnostic
      then [Note(LabelOf(d), d.diagnostic.value)] else []
  {
  }

  /** The order keys of the latched failure and of the latest run, if both are there to be compared. */
  predicate KeysAre(d: Definition, failing: string, latest: string) {
    && d.failingRun.Some? && d.failingRun.value.orderKey == Some(failing) && HasText(Some(failing))
    && d.latestRun.Some? && d.latestRun.value.orderKey == Some(latest) && HasText(Some(latest))
  }

  /**
   * Under a latched failure of another run, while the gate is closed, the latest run is listed as an earlier one exactly
   * if it succeeded and came first: its order key is behind that of the failure, or it began before the active incident.
   */
  lemma EarlierRunIff(d: Definition, input: Input, forge: Forge)
    requires d.latestRun.Some? && HasText(Some(d.latestRun.value.runIdentity)) && d.failureLatched && !IsLatchedRun(d)
    requires input.status == Closed
    ensures EarlierOf(d, input, forge) != [] <==>
      && forge.classify(d.latestRun.value) == Success
      && ((exists f, l :: KeysAre(d, f, l) && forge.compare(f, l) > 0)
          || (exists began, openAt: int ::
                ParseTime(d.latestRun.value.createdAt, forge) == Some(began)
                && ParseTime(input.activeIncidentOpenedAt, forge) == Some(openAt) && began < openAt))
  {
    if d.failingRun.Some? && d.failingRun.value.orderKey.Some? && d.latestRun.value.orderKey.Some? {
      var f, l := d.failingRun.value.orderKey.value, d.latestRun.value.orderKey.value;
      assert HasText(Some(f)) && HasText(Some(l)) ==> KeysAre(d, f, l);
    }
  }

  /** A pending run is told as recovery unless its order key is behind that of the failure. */
  lemma PendingRunIff(d: Definition, input: Input, forge: Forge)
    requires d.latestRun.Some? && HasText(Some(d.latestRun.value.runIdentity)) && d.failureLatched && !IsLatchedRun(d)
    requires input.status == Closed && forge.classify(d.latestRun.value) == Pending
    ensures RecoveryLinks(d, input, forge) != [] <==> !exists f, l :: KeysAre(d, f, l) && forge.compare(f, l) > 0
  {
    if d.failingRun.Some? && d.failingRun.value.orderKey.Some? && d.latestRun.value.orderKey.Some? {
      var f, l := d.failingRun.value.orderKey.value, d.latestRun.value.orderKey.value;
      assert HasText(Some(f)) && HasText(Some(l)) ==> KeysAre(d, f, l);
    }
  }

  /** An incident shows exactly the earlier runs from its opening to its resolution, both included, or to no end. */
  lemma ShownInIff(incident: Incident, earlier: seq<EarlierRun>, forge: Forge, run: EarlierRun)
    ensures run in ShownIn(incident, earlier, forge) <==>
      && run in earlier && run.at.Some?
      && (exists openAt: int :: ParseTime(Some(incident.openedAt), forge) == Some(openAt) && openAt <= run.at.value)
      && (forall resolved: int :: ParseTime(incident.resolvedAt, forge) == Some(resolved) ==> run.at.value <= resolved)
  {
    FilterMembers(earlier, AttachedTo(incident, forge));
  }

  /** A run that counts as earlier because it began before an incident opened is never shown in that incident. */
  lemma PredatingIsOutside(d: Definition, input: Input, forge: Forge, incident: Incident, run: EarlierRun)
    requires run in EarlierOf(d, input, forge) && PredatesIncident(d.latestRun.value, input.activeIncidentOpenedAt, forge)
    requires input.activeIncidentOpenedAt == Some(incident.openedAt)
    ensures !Attached(run, incident, forge)
  {
  }
}
