/** Drafts, catalogs and pins of the Implement With dialog. Names and kinds of models are presentation only. */
module ImplementWithDraft {
  import opened Options
  import opened Strings

  datatype AgentModel = AgentModel(id: string, thinkingLevels: seq<string>)

  type Models = seq<AgentModel>

  function Find(models: Models, modelId: string): (r: Option<AgentModel>)
    ensures r.Some? <==> exists i :: 0 <= i < |models| && models[i].id == modelId
    ensures r.Some? ==> r.value in models && r.value.id == modelId
  {
    if models == [] then None
    else if models[0].id == modelId then Some(models[0])
    else
      var r := Find(models[1..], modelId);
      assert forall i :: 1 <= i < |models| ==> models[i] == models[1..][i - 1];
      r
  }

  function FindCatalogModel(models: Option<Models>, modelId: string): Option<AgentModel> {
    if |modelId| == 0 || models.None? then None else Find(models.value, modelId)
  }

  function ThinkingLevelsForModel(models: Option<Models>, modelId: string): seq<string> {
    var entry := FindCatalogModel(models, modelId);
    if entry.Some? then entry.value.thinkingLevels else []
  }

  function ReconcileVariant(variant: string, offered: seq<string>): string {
    if |variant| > 0 && variant in offered then variant else ""
  }

  // ----- drafts -----

  datatype Draft =
    | SameAsBuild(buildModel: string, buildLevel: string)
    | WithReview(buildModel: string, buildLevel: string, reviewModel: string, reviewLevel: string)

  function ReconcileDraft(draft: Draft, models: Option<Models>): Draft {
    if models.None? then draft
    else
      var buildLevel := ReconcileVariant(draft.buildLevel, ThinkingLevelsForModel(models, draft.buildModel));
      match draft
      case SameAsBuild(buildModel, _) => SameAsBuild(buildModel, buildLevel)
      case WithReview(buildModel, _, reviewModel, reviewLevel) =>
        WithReview(buildModel, buildLevel, reviewModel,
                   ReconcileVariant(reviewLevel, ThinkingLevelsForModel(models, reviewModel)))
  }

  /** A level that may be submitted with a model: none, or one that the catalog entry offers. */
  predicate LegalLevel(models: Models, modelId: string, level: string) {
    level == "" || level in ThinkingLevelsForModel(Some(models), modelId)
  }

  predicate Legal(draft: Draft, models: Models) {
    && LegalLevel(models, draft.buildModel, draft.buildLevel)
    && (draft.WithReview? ==> LegalLevel(models, draft.reviewModel, draft.reviewLevel))
  }

  /** Reconciling makes the levels legal, keeps the models, and leaves a draft alone iff it is legal already. */
  lemma ReconcileMakesLegal(draft: Draft, models: Models)
    ensures var r := ReconcileDraft(draft, Some(models));
      && Legal(r, models) && r.buildModel == draft.buildModel && r.WithReview? == draft.WithReview?
      && (r.WithReview? ==> r.reviewModel == draft.reviewModel)
      && (r == draft <==> Legal(draft, models))
  {
  }

  // ----- previews and pins -----

  datatype Preview = Preview(kind: string, models: Models)

  function NextPin(pin: Option<Models>, preview: Option<Preview>): Option<Models> {
    if pin.Some? then pin
    else if preview.Some? && preview.value.kind == "READY" then Some(preview.value.models)
    else None
  }

  /** What a query observer offers at one render. */
  datatype Observed = Observed(preview: Option<Preview>, fetchedAfterMount: bool, previewFailed: bool)

  function SessionPreview(pin: Option<Models>, o: Observed): Observed {
    if pin.Some? || o.fetchedAfterMount then o else Observed(None, o.fetchedAfterMount, false)
  }

  datatype Catalog = Catalog(loading: bool, failed: bool, models: Option<Models>)

  function UsableCatalog(preview: Option<Preview>, previewFailed: bool, pin: Option<Models>): Catalog {
    var models := if pin.Some? then pin
                  else if preview.None? then None
                  else if preview.value.kind == "READY" then Some(preview.value.models)
                  else Some([]);
    var failed := pin.None? && (if preview.None? then previewFailed else preview.value.kind != "READY");
    Catalog(models.None? && !failed, failed, models)
  }

  // ----- submission -----

  predicate IsUnavailable(modelId: string, models: Models) {
    |modelId| > 0 && !exists i :: 0 <= i < |models| && models[i].id == modelId
  }

  predicate BlocksSave(catalog: Catalog, modelId: string, requireSelection: bool) {
    if |modelId| == 0 && !requireSelection then false
    else if catalog.failed then true
    else if catalog.loading || catalog.models.None? then true
    else if |catalog.models.value| == 0 then true
    else if |modelId| == 0 then true
    else IsUnavailable(modelId, catalog.models.value)
  }

  /** A required model passes exactly when a settled catalog has an entry for it. */
  lemma PassesIff(catalog: Catalog, modelId: string)
    ensures !BlocksSave(catalog, modelId, true) <==>
      && !catalog.failed && !catalog.loading && catalog.models.Some?
      && FindCatalogModel(catalog.models, modelId).Some?
  {
  }

  datatype Profile = Profile(
    backendId: string, buildModel: string, buildLevel: Option<string>,
    sameAsBuild: bool, reviewModel: Option<string>, reviewLevel: Option<string>)

  function EmptyToNull(value: string): Option<string> { if |Trim(value)| == 0 then None else Some(value) }

  function ProfileOf(backendId: string, draft: Draft): Profile {
    match draft
    case SameAsBuild(buildModel, buildLevel) => Profile(backendId, buildModel, EmptyToNull(buildLevel), true, None, None)
    case WithReview(buildModel, buildLevel, reviewModel, reviewLevel) =>
      Profile(backendId, buildModel, EmptyToNull(buildLevel), false, EmptyToNull(reviewModel), EmptyToNull(reviewLevel))
  }

  predicate OffersLevel(models: Models, modelId: string, level: Option<string>) {
    level.None? || level.value in ThinkingLevelsForModel(Some(models), modelId)
  }

  /** A profile whose models and levels the catalog offers; an explicit review names a model unless its id is blank. */
  ghost predicate FromCatalog(profile: Profile, draft: Draft, models: Models) {
    && profile.buildModel == draft.buildModel && FindCatalogModel(Some(models), profile.buildModel).Some?
    && OffersLevel(models, profile.buildModel, profile.buildLevel)
    && (profile.sameAsBuild <==> draft.SameAsBuild?)
    && (profile.sameAsBuild ==> profile.reviewModel.None? && profile.reviewLevel.None?)
    && (draft.WithReview? ==>
          && FindCatalogModel(Some(models), draft.reviewModel).Some?
          && (profile.reviewModel == Some(draft.reviewModel) <==> Trim(draft.reviewModel) != "")
          && (profile.reviewModel.Some? ==> profile.reviewModel.value == draft.reviewModel)
          && OffersLevel(models, draft.reviewModel, profile.reviewLevel))
  }

  lemma LegalDraftGivesLegalProfile(backendId: string, draft: Draft, models: Models)
    requires Legal(draft, models) && FindCatalogModel(Some(models), draft.buildModel).Some?
    requires draft.WithReview? ==> FindCatalogModel(Some(models), draft.reviewModel).Some?
    ensures FromCatalog(ProfileOf(backendId, draft), draft, models)
  {
    assert Trim("") == "";
  }

  /** A catalog id of white space only passes as a review model, yet is submitted as no review model at all. */
  lemma BlankReviewIsDropped(backendId: string)
    ensures var models := [AgentModel("m", []), AgentModel(" ", [])];
      var draft := WithReview("m", "", " ", "");
      && !BlocksSave(Catalog(false, false, Some(models)), draft.reviewModel, true)
      && ProfileOf(backendId, draft).reviewModel == None && !ProfileOf(backendId, draft).sameAsBuild
  {
    var models := [AgentModel("m", []), AgentModel(" ", [])];
    assert models[1].id == " ";
    assert TrimStart(" ") == TrimStart("") == "";
  }
}
