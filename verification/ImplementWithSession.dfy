/**
 * One session of the Implement With dialog: renders with new query data, backend switches, edits and submissions.
 * A render and its layout effect are one step.
 */
module ImplementWithSession {
  import opened Options
  import opened Sequences
  import opened Strings
  import opened ImplementWithDraft

  datatype Source = FromPrefs | FromUser
  datatype Slot = Slot(source: Source, draft: Draft)

  /** What a render brings in besides the backend. */
  datatype Inputs = Inputs(observed: Observed, initialDraft: Draft, submitPending: bool, preferencesLoading: bool)

  datatype Submission = Submission(profile: Profile, draft: Draft)

  datatype State = State(
    backendId: string,
    pins: map<string, Models>,
    slots: map<string, Slot>,
    draft: Draft,
    catalog: Catalog,
    submitPending: bool,
    preferencesLoading: bool,
    submissions: seq<Submission>)

  datatype Event =
    | Render(inputs: Inputs)
    | SwitchBackend(backendId: string, inputs: Inputs)
    | EditBuildModel(modelId: string)
    | EditBuildLevel(level: string)
    | EditReviewModel(modelId: string)
    | EditReviewLevel(level: string)
    | Submit

  function PinOf(pins: map<string, Models>, backendId: string): Option<Models> {
    if backendId in pins then Some(pins[backendId]) else None
  }

  /** The catalog step of a render: the pin may be set, never replaced. */
  function PinStep(s: State, o: Observed): State {
    var existing := PinOf(s.pins, s.backendId);
    var session := SessionPreview(existing, o);
    var pin := NextPin(existing, session.preview);
    s.(pins := if pin.Some? && existing.None? then s.pins[s.backendId := pin.value] else s.pins,
       catalog := UsableCatalog(session.preview, session.previewFailed, pin))
  }

  /** The layout effect: the user's draft of this backend if there is one, else the preferences; reconciled. */
  function LayoutEffect(s: State, initialDraft: Draft): State {
    var user := s.backendId in s.slots && s.slots[s.backendId].source == FromUser;
    var draft := ReconcileDraft(if user then s.slots[s.backendId].draft else initialDraft, s.catalog.models);
    s.(slots := s.slots[s.backendId := Slot(if user then FromUser else FromPrefs, draft)], draft := draft)
  }

  function Rendered(s: State, i: Inputs): State {
    LayoutEffect(PinStep(s.(submitPending := i.submitPending, preferencesLoading := i.preferencesLoading), i.observed), i.initialDraft)
  }

  function Mount(backendId: string, i: Inputs): State {
    Rendered(State(backendId, map[], map[], i.initialDraft, Catalog(true, false, None), false, false, []), i)
  }

  function ReplaceDraft(s: State, draft: Draft): State {
    s.(draft := draft, slots := s.slots[s.backendId := Slot(FromUser, draft)])
  }

  function LevelsFor(s: State, modelId: string): seq<string> { ThinkingLevelsForModel(s.catalog.models, modelId) }

  function WithBuildModel(s: State, modelId: string): Draft {
    s.draft.(buildModel := modelId, buildLevel := ReconcileVariant(s.draft.buildLevel, LevelsFor(s, modelId)))
  }

  function WithReviewModel(s: State, modelId: string): Draft {
    if |modelId| == 0 then SameAsBuild(s.draft.buildModel, s.draft.buildLevel)
    else
      var level := if s.draft.SameAsBuild? then s.draft.buildLevel else s.draft.reviewLevel;
      WithReview(s.draft.buildModel, s.draft.buildLevel, modelId, ReconcileVariant(level, LevelsFor(s, modelId)))
  }

  predicate ModelSelectDisabled(s: State) {
    s.submitPending || s.catalog.loading || s.catalog.failed || s.catalog.models.None?
  }

  predicate ImplementDisabled(s: State) {
    || s.submitPending
    || BlocksSave(s.catalog, s.draft.buildModel, true)
    || (s.draft.WithReview? && BlocksSave(s.catalog, s.draft.reviewModel, true))
  }

  /** The options of a level control: the default, the current level, and those of the model. */
  predicate Offered(level: string, current: string, levels: seq<string>) {
    level == "" || level == current || level in levels
  }

  predicate Enabled(s: State, e: Event) {
    match e
    case Render(_) => true
    case SwitchBackend(_, _) => !s.preferencesLoading && !s.submitPending
    case EditBuildModel(_) => !s.preferencesLoading && !ModelSelectDisabled(s)
    case EditReviewModel(_) => !s.preferencesLoading && !ModelSelectDisabled(s)
    case EditBuildLevel(level) =>
      !s.preferencesLoading && !ModelSelectDisabled(s) && Offered(level, s.draft.buildLevel, LevelsFor(s, s.draft.buildModel))
    case EditReviewLevel(level) =>
      && !s.preferencesLoading && !ModelSelectDisabled(s) && s.draft.WithReview?
      && Offered(level, s.draft.reviewLevel, LevelsFor(s, s.draft.reviewModel))
    case Submit => !s.preferencesLoading
  }

  function Next(s: State, e: Event): State {
    match e
    case Render(inputs) => Rendered(s, inputs)
    case SwitchBackend(backendId, inputs) => Rendered(s.(backendId := backendId), inputs)
    case EditBuildModel(modelId) => ReplaceDraft(s, WithBuildModel(s, modelId))
    case EditBuildLevel(level) => ReplaceDraft(s, s.draft.(buildLevel := level))
    case EditReviewModel(modelId) => ReplaceDraft(s, WithReviewModel(s, modelId))
    case EditReviewLevel(level) =>
      ReplaceDraft(s, if s.draft.SameAsBuild? then s.draft else s.draft.(reviewLevel := level))
    case Submit =>
      if ImplementDisabled(s) then s
      else s.(submissions := s.submissions + [Submission(ProfileOf(s.backendId, s.draft), s.draft)])
  }

  ghost predicate IsStep(s: State, e: Event, t: State) { Enabled(s, e) && t == Next(s, e) }

  ghost predicate IsRun(backendId: string, first: Inputs, states: seq<State>, events: seq<Event>) {
    && |states| == |events| + 1 && states[0] == Mount(backendId, first)
    && forall i :: 0 <= i < |events| ==> IsStep(states[i], events[i], states[i + 1])
  }

  // ----- the invariant -----

  /** The catalog in use is the pinned one as soon as there is a pin, and any usable catalog is pinned. */
  ghost predicate CatalogOk(s: State) {
    && (s.backendId in s.pins ==> s.catalog == Catalog(false, false, Some(s.pins[s.backendId])))
    && (s.catalog.models.Some? && !s.catalog.failed ==> s.backendId in s.pins)
    && (s.catalog.loading ==> s.catalog.models.None?)
  }

  /** The draft on screen is the slot of its backend; a user's draft has a pinned catalog and legal levels. */
  ghost predicate SlotsOk(s: State) {
    && s.backendId in s.slots && s.slots[s.backendId].draft == s.draft
    && (forall b :: b in s.slots && s.slots[b].source == FromUser ==> b in s.pins && Legal(s.slots[b].draft, s.pins[b]))
    && (s.backendId in s.pins ==> Legal(s.draft, s.pins[s.backendId]))
  }

  ghost predicate SubmissionsOk(s: State) {
    forall k :: 0 <= k < |s.submissions| ==>
      var sub := s.submissions[k];
      sub.profile.backendId in s.pins && FromCatalog(sub.profile, sub.draft, s.pins[sub.profile.backendId])
  }

  ghost predicate PinsKept(s: State, t: State) {
    forall b :: b in s.pins ==> b in t.pins && t.pins[b] == s.pins[b]
  }

  lemma PinStepKeeps(s: State, o: Observed)
    ensures CatalogOk(PinStep(s, o)) && PinsKept(s, PinStep(s, o))
    ensures forall b :: b in PinStep(s, o).pins && b !in s.pins ==>
              && b == s.backendId && o.fetchedAfterMount && o.preview.Some? && o.preview.value.kind == "READY"
              && PinStep(s, o).pins[b] == o.preview.value.models
    ensures s.backendId !in s.pins && o.fetchedAfterMount && o.preview.Some? && o.preview.value.kind == "READY" ==>
              s.backendId in PinStep(s, o).pins
  {
  }

  /** The user slots of a state that may have moved to another backend. */
  ghost predicate UserSlotsOk(s: State) {
    forall b :: b in s.slots && s.slots[b].source == FromUser ==> b in s.pins && Legal(s.slots[b].draft, s.pins[b])
  }

  lemma EffectKeeps(p: State, initialDraft: Draft)
    requires CatalogOk(p) && UserSlotsOk(p)
    ensures var t := LayoutEffect(p, initialDraft);
      && CatalogOk(t) && SlotsOk(t) && t.pins == p.pins && t.backendId == p.backendId && t.submissions == p.submissions
      && (forall b :: b in p.slots && p.slots[b].source == FromUser ==> b in t.slots && t.slots[b] == p.slots[b])
  {
    if p.backendId in p.pins {
      var user := p.backendId in p.slots && p.slots[p.backendId].source == FromUser;
      ReconcileMakesLegal(if user then p.slots[p.backendId].draft else initialDraft, p.pins[p.backendId]);
    }
  }

  lemma RenderKeeps(s: State, i: Inputs)
    requires UserSlotsOk(s) && SubmissionsOk(s)
    ensures var t := Rendered(s, i);
      && CatalogOk(t) && SlotsOk(t) && SubmissionsOk(t) && PinsKept(s, t) && t.backendId == s.backendId
      && (forall b :: b in s.slots && s.slots[b].source == FromUser ==> b in t.slots && t.slots[b] == s.slots[b])
  {
    var r := s.(submitPending := i.submitPending, preferencesLoading := i.preferencesLoading);
    PinStepKeeps(r, i.observed);
    EffectKeeps(PinStep(r, i.observed), i.initialDraft);
  }

  lemma ReplaceKeeps(s: State, draft: Draft)
    requires CatalogOk(s) && SlotsOk(s) && SubmissionsOk(s) && !ModelSelectDisabled(s)
    requires s.backendId in s.pins ==> Legal(draft, s.pins[s.backendId])
    ensures var t := ReplaceDraft(s, draft); CatalogOk(t) && SlotsOk(t) && SubmissionsOk(t)
  {
  }

  lemma SubmitKeeps(s: State)
    requires CatalogOk(s) && SlotsOk(s) && SubmissionsOk(s)
    ensures var t := Next(s, Submit); CatalogOk(t) && SlotsOk(t) && SubmissionsOk(t)
  {
    if !ImplementDisabled(s) {
      PassesIff(s.catalog, s.draft.buildModel);
      if s.draft.WithReview? { PassesIff(s.catalog, s.draft.reviewModel); }
      LegalDraftGivesLegalProfile(s.backendId, s.draft, s.pins[s.backendId]);
    }
  }

  lemma StepKeeps(s: State, e: Event, t: State)
    requires CatalogOk(s) && SlotsOk(s) && SubmissionsOk(s) && IsStep(s, e, t)
    ensures CatalogOk(t) && SlotsOk(t) && SubmissionsOk(t) && PinsKept(s, t)
  {
    match e
    case Render(inputs) => RenderKeeps(s, inputs);
    case SwitchBackend(backendId, inputs) => RenderKeeps(s.(backendId := backendId), inputs);
    case EditBuildModel(modelId) => ReplaceKeeps(s, WithBuildModel(s, modelId));
    case EditBuildLevel(level) => ReplaceKeeps(s, s.draft.(buildLevel := level));
    case EditReviewModel(modelId) => ReplaceKeeps(s, WithReviewModel(s, modelId));
    case EditReviewLevel(level) => ReplaceKeeps(s, s.draft.(reviewLevel := level));
    case Submit => SubmitKeeps(s);
  }

  lemma {:induction false} RunKeeps(backendId: string, first: Inputs, states: seq<State>, events: seq<Event>, i: nat)
    requires IsRun(backendId, first, states, events) && i <= |events|
    ensures CatalogOk(states[i]) && SlotsOk(states[i]) && SubmissionsOk(states[i])
  {
    if i == 0 {
      RenderKeeps(State(backendId, map[], map[], first.initialDraft, Catalog(true, false, None), false, false, []), first);
    } else {
      RunKeeps(backendId, first, states, events, i - 1);
      assert IsStep(states[i - 1], events[i - 1], states[i]);
      StepKeeps(states[i - 1], events[i - 1], states[i]);
    }
  }

  // ----- what a session guarantees -----

  lemma PinsKeptAt(backendId: string, first: Inputs, states: seq<State>, events: seq<Event>, k: nat)
    requires IsRun(backendId, first, states, events) && k < |events|
    ensures PinsKept(states[k], states[k + 1])
  {
    RunKeeps(backendId, first, states, events, k);
    assert IsStep(states[k], events[k], states[k + 1]);
    StepKeeps(states[k], events[k], states[k + 1]);
  }

  /** The catalog of a backend never changes after its first accepted READY preview, whatever is previewed later. */
  lemma {:induction false} PinNeverChanges(backendId: string, first: Inputs, states: seq<State>, events: seq<Event>, i: nat, j: nat, b: string)
    requires IsRun(backendId, first, states, events) && i <= j <= |events| && b in states[i].pins
    ensures b in states[j].pins && states[j].pins[b] == states[i].pins[b]
  {
    if i < j {
      PinNeverChanges(backendId, first, states, events, i, j - 1, b);
      PinsKeptAt(backendId, first, states, events, j - 1);
    }
  }

  /** Whenever that backend is selected again, the dialog shows the catalog it was pinned with. */
  lemma PinnedCatalogIsShown(backendId: string, first: Inputs, states: seq<State>, events: seq<Event>, i: nat, j: nat, b: string)
    requires IsRun(backendId, first, states, events) && i <= j <= |events| && b in states[i].pins && states[j].backendId == b
    ensures states[j].catalog == Catalog(false, false, Some(states[i].pins[b]))
  {
    PinNeverChanges(backendId, first, states, events, i, j, b);
    RunKeeps(backendId, first, states, events, j);
  }

  /** Every submission that was not disabled is for models and levels of the catalog pinned for its backend. */
  lemma SubmissionsAreLegal(backendId: string, first: Inputs, states: seq<State>, events: seq<Event>, i: nat, k: nat)
    requires IsRun(backendId, first, states, events) && i <= |events| && k < |states[i].submissions|
    ensures var sub := states[i].submissions[k];
      sub.profile.backendId in states[i].pins && FromCatalog(sub.profile, sub.draft, states[i].pins[sub.profile.backendId])
  {
    RunKeeps(backendId, first, states, events, i);
  }

  ghost predicate IsEdit(e: Event) {
    e.EditBuildModel? || e.EditBuildLevel? || e.EditReviewModel? || e.EditReviewLevel?
  }

  /** A step other than an edit under backend `b` keeps the user's draft of `b`. */
  lemma UserSlotStays(s: State, e: Event, t: State, b: string)
    requires CatalogOk(s) && SlotsOk(s) && SubmissionsOk(s) && IsStep(s, e, t)
    requires b in s.slots && s.slots[b].source == FromUser && (IsEdit(e) ==> s.backendId != b)
    ensures b in t.slots && t.slots[b] == s.slots[b]
  {
    match e {
      case Render(inputs) => RenderKeeps(s, inputs);
      case SwitchBackend(to, inputs) => RenderKeeps(s.(backendId := to), inputs);
      case _ =>
    }
  }

  lemma UserSlotStaysAt(backendId: string, first: Inputs, states: seq<State>, events: seq<Event>, k: nat, b: string)
    requires IsRun(backendId, first, states, events) && k < |events|
    requires b in states[k].slots && states[k].slots[b].source == FromUser && (IsEdit(events[k]) ==> states[k].backendId != b)
    ensures b in states[k + 1].slots && states[k + 1].slots[b] == states[k].slots[b]
  {
    RunKeeps(backendId, first, states, events, k);
    assert IsStep(states[k], events[k], states[k + 1]);
    UserSlotStays(states[k], events[k], states[k + 1], b);
  }

  /**
   * A user's draft survives everything but the user's own edits under the same backend:
   * switching away and back, new previews and new preferences all restore it exactly.
   */
  lemma {:induction false} UserDraftSurvives(backendId: string, first: Inputs, states: seq<State>, events: seq<Event>, i: nat, j: nat, b: string)
    requires IsRun(backendId, first, states, events) && i <= j <= |events|
    requires b in states[i].slots && states[i].slots[b].source == FromUser
    requires forall k :: i <= k < j && IsEdit(events[k]) ==> states[k].backendId != b
    ensures b in states[j].slots && states[j].slots[b] == states[i].slots[b]
    ensures states[j].backendId == b ==> states[j].draft == states[i].slots[b].draft
  {
    if i < j {
      UserDraftSurvives(backendId, first, states, events, i, j - 1, b);
      UserSlotStaysAt(backendId, first, states, events, j - 1, b);
    }
    RunKeeps(backendId, first, states, events, j);
  }

  /** A level survives a change of model if the new model offers it, and is the default otherwise. */
  function LevelAfter(level: string, offered: seq<string>): string { if level in offered then level else "" }

  ghost predicate SameBuild(d: Draft, e: Draft) { d.buildModel == e.buildModel && d.buildLevel == e.buildLevel }

  ghost predicate SameReview(d: Draft, e: Draft) {
    (d.WithReview? <==> e.WithReview?) && (d.WithReview? ==> d.reviewModel == e.reviewModel && d.reviewLevel == e.reviewLevel)
  }

  /** What each edit puts on screen, and that it leaves the other half of the draft alone. */
  lemma EditTakesEffect(s: State, e: Event)
    requires Enabled(s, e) && IsEdit(e)
    ensures var d, t := s.draft, Next(s, e).draft;
      match e
      case EditBuildModel(m) =>
        t.buildModel == m && t.buildLevel == LevelAfter(d.buildLevel, LevelsFor(s, m)) && SameReview(d, t)
      case EditBuildLevel(level) => t.buildModel == d.buildModel && t.buildLevel == level && SameReview(d, t)
      case EditReviewModel(m) =>
        && SameBuild(d, t) && (t.SameAsBuild? <==> m == "")
        && (t.WithReview? ==>
              && t.reviewModel == m
              && t.reviewLevel == LevelAfter(if d.WithReview? then d.reviewLevel else d.buildLevel, LevelsFor(s, m)))
      case EditReviewLevel(level) =>
        SameBuild(d, t) && t.WithReview? && t.reviewModel == d.reviewModel && t.reviewLevel == level
      case _ => true
  {
  }

  predicate HasEntry(models: Models, modelId: string) {
    modelId != "" && exists i :: 0 <= i < |models| && models[i].id == modelId
  }

  /** A text of the draft as it is submitted: blank text is submitted as none. */
  ghost predicate SubmittedAs(text: string, value: Option<string>) {
    value == if Trim(text) == "" then None else Some(text)
  }

  ghost predicate Carries(profile: Profile, backendId: string, draft: Draft) {
    && profile.backendId == backendId && profile.buildModel == draft.buildModel
    && SubmittedAs(draft.buildLevel, profile.buildLevel)
    && (profile.sameAsBuild <==> draft.SameAsBuild?)
    && (draft.WithReview? ==>
          SubmittedAs(draft.reviewModel, profile.reviewModel) && SubmittedAs(draft.reviewLevel, profile.reviewLevel))
  }

  /**
   * Submitting records the draft on screen, for its backend, exactly if nothing is being submitted, the backend is
   * pinned, and its catalog has entries for the build model and for an explicit review model.
   */
  lemma SubmitRecordsIff(s: State)
    requires CatalogOk(s) && SlotsOk(s) && Enabled(s, Submit)
    ensures var t := Next(s, Submit);
      if !s.submitPending && s.backendId in s.pins && HasEntry(s.pins[s.backendId], s.draft.buildModel)
         && (s.draft.WithReview? ==> HasEntry(s.pins[s.backendId], s.draft.reviewModel))
      then
        && |t.submissions| == |s.submissions| + 1 && Front(t.submissions) == s.submissions
        && Last(t.submissions).draft == s.draft && Carries(Last(t.submissions).profile, s.backendId, s.draft)
      else t == s
  {
    PassesIff(s.catalog, s.draft.buildModel);
    if s.draft.WithReview? { PassesIff(s.catalog, s.draft.reviewModel); }
  }

  /**
   * What an edit leaves on screen comes back: until the next edit under the same backend it stays that backend's
   * draft, and it is on screen whenever the backend is selected, whatever else is rendered, switched to or edited.
   */
  lemma EditComesBack(backendId: string, first: Inputs, states: seq<State>, events: seq<Event>, i: nat, j: nat)
    requires IsRun(backendId, first, states, events) && i < j <= |events| && IsEdit(events[i])
    requires forall k :: i < k < j && IsEdit(events[k]) ==> states[k].backendId != states[i].backendId
    ensures var b := states[i].backendId;
      && b in states[j].slots && states[j].slots[b] == Slot(FromUser, states[i + 1].draft)
      && (states[j].backendId == b ==> states[j].draft == states[i + 1].draft)
  {
    assert IsStep(states[i], events[i], states[i + 1]);
    UserDraftSurvives(backendId, first, states, events, i + 1, j, states[i].backendId);
  }

  /**
   * What the last render under `b` up to state `i` made of the preferences it was given, if there was one;
   * state 0 is the mount.
   */
  ghost function PrefsAt(first: Inputs, states: seq<State>, events: seq<Event>, i: nat, b: string): Option<Draft>
    requires |states| == |events| + 1 && i <= |events|
  {
    if i == 0 then
      if states[0].backendId == b then Some(ReconcileDraft(first.initialDraft, states[0].catalog.models)) else None
    else if (events[i - 1].Render? || events[i - 1].SwitchBackend?) && states[i].backendId == b then
      Some(ReconcileDraft(events[i - 1].inputs.initialDraft, states[i].catalog.models))
    else PrefsAt(first, states, events, i - 1, b)
  }

  ghost function PrefsSlot(prefs: Option<Draft>): Option<Slot> {
    if prefs.Some? then Some(Slot(FromPrefs, prefs.value)) else None
  }

  ghost function SlotOf(s: State, b: string): Option<Slot> {
    if b in s.slots then Some(s.slots[b]) else None
  }

  /**
   * The draft of a backend the user never edited is that of the preferences given to its last render, reconciled
   * with the catalog of that render; a backend never rendered has none. It is on screen when `b` is selected.
   */
  lemma {:induction false} PrefsDraftFollows(backendId: string, first: Inputs, states: seq<State>, events: seq<Event>, i: nat, b: string)
    requires IsRun(backendId, first, states, events) && i <= |events|
    requires forall k :: 0 <= k < i && IsEdit(events[k]) ==> states[k].backendId != b
    ensures SlotOf(states[i], b) == PrefsSlot(PrefsAt(first, states, events, i, b))
    ensures states[i].backendId == b ==> PrefsAt(first, states, events, i, b) == Some(states[i].draft)
  {
    RunKeeps(backendId, first, states, events, i);
    if i > 0 {
      PrefsDraftFollows(backendId, first, states, events, i - 1, b);
      assert IsStep(states[i - 1], events[i - 1], states[i]);
    }
  }
}

/** The dialog's refs and state, with each handler proved against the transition it is. */
module ImplementWithObject {
  import opened Options
  import opened ImplementWithDraft
  import opened ImplementWithSession

  class ImplementWithDialog {
    var backendId: string
    var catalogPins: map<string, Models>
    var draftSlots: map<string, Slot>
    var draft: Draft
    var catalog: Catalog
    var submitPending: bool
    var preferencesLoading: bool
    var submissions: seq<Submission>

    ghost function Model(): State
      reads this
    {
      State(backendId, catalogPins, draftSlots, draft, catalog, submitPending, preferencesLoading, submissions)
    }

    constructor (backendId: string, first: Inputs)
      ensures Model() == Mount(backendId, first)
    {
      this.backendId := backendId;
      catalogPins, draftSlots, submissions := map[], map[], [];
      draft, catalog := first.initialDraft, Catalog(true, false, None);
      submitPending, preferencesLoading := false, false;
      new;
      OnRender(first);
    }

    method OnRender(inputs: Inputs)
      modifies this
      ensures Model() == Rendered(old(Model()), inputs)
    {
      submitPending, preferencesLoading := inputs.submitPending, inputs.preferencesLoading;
      var existingPin := PinOf(catalogPins, backendId);
      var session := SessionPreview(existingPin, inputs.observed);
      var catalogPin := NextPin(existingPin, session.preview);
      if catalogPin.Some? && existingPin.None? {
        catalogPins := catalogPins[backendId := catalogPin.value];
      }
      catalog := UsableCatalog(session.preview, session.previewFailed, catalogPin);
      ApplyLayoutEffect(inputs.initialDraft);
    }

    method ApplyLayoutEffect(initialDraft: Draft)
      modifies this`draftSlots, this`draft
      ensures Model() == LayoutEffect(old(Model()), initialDraft)
    {
      var source := if backendId in draftSlots && draftSlots[backendId].source == FromUser then FromUser else FromPrefs;
      var next := ReconcileDraft(if source == FromUser then draftSlots[backendId].draft else initialDraft, catalog.models);
      draftSlots := draftSlots[backendId := Slot(source, next)];
      draft := next;
    }

    method OnBackendChange(to: string, inputs: Inputs)
      requires Enabled(Model(), SwitchBackend(to, inputs))
      modifies this
      ensures Model() == Next(old(Model()), SwitchBackend(to, inputs))
    {
      backendId := to;
      OnRender(inputs);
    }

    method Replace(next: Draft)
      modifies this`draft, this`draftSlots
      ensures Model() == ReplaceDraft(old(Model()), next)
    {
      draftSlots := draftSlots[backendId := Slot(FromUser, next)];
      draft := next;
    }

    method UpdateBuild(nextModel: string)
      requires Enabled(Model(), EditBuildModel(nextModel))
      modifies this`draft, this`draftSlots
      ensures Model() == Next(old(Model()), EditBuildModel(nextModel))
    {
      var nextVariants := ThinkingLevelsForModel(catalog.models, nextModel);
      Replace(draft.(buildModel := nextModel, buildLevel := ReconcileVariant(draft.buildLevel, nextVariants)));
    }

    method UpdateReview(nextModel: string)
      requires Enabled(Model(), EditReviewModel(nextModel))
      modifies this`draft, this`draftSlots
      ensures Model() == Next(old(Model()), EditReviewModel(nextModel))
    {
      if |nextModel| == 0 {
        Replace(SameAsBuild(draft.buildModel, draft.buildLevel));
        return;
      }
      var nextVariants := ThinkingLevelsForModel(catalog.models, nextModel);
      var level := if draft.SameAsBuild? then draft.buildLevel else draft.reviewLevel;
      Replace(WithReview(draft.buildModel, draft.buildLevel, nextModel, ReconcileVariant(level, nextVariants)));
    }

    method UpdateBuildLevel(level: string)
      requires Enabled(Model(), EditBuildLevel(level))
      modifies this`draft, this`draftSlots
      ensures Model() == Next(old(Model()), EditBuildLevel(level))
    {
      Replace(draft.(buildLevel := level));
    }

    method UpdateReviewLevel(level: string)
      requires Enabled(Model(), EditReviewLevel(level))
      modifies this`draft, this`draftSlots
      ensures Model() == Next(old(Model()), EditReviewLevel(level))
    {
      Replace(draft.(reviewLevel := level));
    }

    method HandleSubmit()
      requires Enabled(Model(), Submit)
      modifies this`submissions
      ensures Model() == Next(old(Model()), Submit)
    {
      var buildBlocked := BlocksSave(catalog, draft.buildModel, true);
      var reviewBlocked := draft.WithReview? && BlocksSave(catalog, draft.reviewModel, true);
      if submitPending || buildBlocked || reviewBlocked { return; }
      submissions := submissions + [Submission(ProfileOf(backendId, draft), draft)];
    }
  }
}
