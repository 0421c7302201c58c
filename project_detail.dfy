/** `loadProject` of src/pages/ProjectDetailPage.tsx: fetch one `Generation`,
    parse its four stored sections back (a fixed default for each one that is
    missing or empty), copy the form fields for display, and turn the other
    outcomes into error messages. */
module ProjectDetail {
  import opened Wrappers
  import opened Text
  import opened Json
  import opened Schema
  import opened ProjectPage
  import GeneratePrd

  /** The four decoded sections shown by the results view. */
  datatype Prd = Prd(productRequirements: Json, userStories: Json, risks: Json, mvpScope: Json)

  const DefaultRequirements :=
    Obj([Member("overview", Str("")), Member("goals", Arr([])), Member("successMetrics", Arr([]))])
  const DefaultScope :=
    Obj([Member("inScope", Arr([])), Member("outOfScope", Arr([])), Member("timeline", Str("")),
         Member("assumptions", Arr([]))])

  /** `stored ? JSON.parse(stored) : fallback`; `None` when the text does not parse. */
  function DecodeSection(stored: Option<string>, fallback: Json): Option<Json> {
    if stored.Some? && stored.value != "" then Parse(stored.value) else Some(fallback)
  }

  /** `parsedResult`: `None` when one of the sections throws on parsing. */
  function DecodeResult(gen: Generation): Option<Prd> {
    var pr := DecodeSection(gen.productRequirements, DefaultRequirements);
    var us := DecodeSection(gen.userStories, Arr([]));
    var rk := DecodeSection(gen.risks, Arr([]));
    var ms := DecodeSection(gen.mvpScope, DefaultScope);
    if pr.Some? && us.Some? && rk.Some? && ms.Some? then Some(Prd(pr.value, us.value, rk.value, ms.value))
    else None
  }

  /** The form shown beside the result; null optional fields become "". */
  function FormOf(gen: Generation): Form {
    Form(gen.title, gen.idea, gen.targetMarket, gen.constraints.GetOr(""), gen.additionalContext.GetOr(""))
  }

  /** What `Generation.get` gives: `data` and `errors`, or a thrown error. */
  datatype GetResponse =
    | Fetched(data: Option<Generation>, errors: Option<seq<string>>)
    | FetchFailed(message: string)

  const LoadFallback := "Failed to load project"
  const LoadFailedPrefix := "Failed to load project: "
  const NotFound := "Project not found"

  /** The message shown for a thrown error: `err.message || default`. */
  function ThrownText(message: string): string {
    if message == "" then LoadFallback else message
  }

  datatype Loaded = Loaded(result: Prd, form: Form)

  /** What one `loadProject` ends with: the decoded record, or the error to show. */
  function LoadOutcome(response: GetResponse): Result<Loaded, string> {
    match response
    case FetchFailed(message) => Err(ThrownText(message))
    case Fetched(Some(gen), _) =>
      (match DecodeResult(gen)
       case None => Err(ThrownText(MalformedJson))
       case Some(prd) => Ok(Loaded(prd, FormOf(gen))))
    case Fetched(None, Some(es)) => Err(LoadFailedPrefix + Join(es, ", "))
    case Fetched(None, None) => Err(NotFound)
  }

  class ProjectDetailView {
    var loading: bool
    var error: string
    var result: Option<Prd>
    var formData: Option<Form>

    constructor()
      ensures loading && error == "" && result.None? && formData.None?
    {
      loading := true;
      error := "";
      result := None;
      formData := None;
    }

    /** `loadProject`: on success the result and the form are shown and the
        error is clear; otherwise the error is set and the previous result and
        form stay. Loading ends in every outcome. */
    method LoadProject(response: GetResponse)
      modifies this
      ensures !loading
      ensures LoadOutcome(response).Ok? ==>
        error == "" && result == Some(LoadOutcome(response).value.result) &&
        formData == Some(LoadOutcome(response).value.form)
      ensures LoadOutcome(response).Err? ==>
        error == LoadOutcome(response).error && result == old(result) && formData == old(formData)
    {
      loading := true;
      error := "";
      match response {
        case FetchFailed(message) =>
          error := ThrownText(message);
        case Fetched(data, errors) =>
          if data.Some? {
            var gen := data.value;
            var parsed := DecodeResult(gen);
            if parsed.None? {
              error := ThrownText(MalformedJson);
            } else {
              result := parsed;
              formData := Some(FormOf(gen));
            }
          } else if errors.Some? {
            error := LoadFailedPrefix + Join(errors.value, ", ");
          } else {
            error := NotFound;
          }
      }
      loading := false;
    }
  }

  // ---------------------------------------------------------------------------
  // Properties
  // ---------------------------------------------------------------------------

  /** A missing or empty section decodes to its default: the empty overview
      with no goals or metrics, no stories, no risks, the empty scope. */
  lemma MissingSectionsDefault(gen: Generation)
    requires DecodeResult(gen).Some?
    ensures gen.productRequirements.None? || gen.productRequirements == Some("") ==>
      DecodeResult(gen).value.productRequirements == DefaultRequirements
    ensures gen.userStories.None? || gen.userStories == Some("") ==> DecodeResult(gen).value.userStories == Arr([])
    ensures gen.risks.None? || gen.risks == Some("") ==> DecodeResult(gen).value.risks == Arr([])
    ensures gen.mvpScope.None? || gen.mvpScope == Some("") ==> DecodeResult(gen).value.mvpScope == DefaultScope
  {
  }

  /** Reading back the JSON text of a value gives the value; an absent value
      gives the default. */
  lemma SectionRoundTrip(data: Json, key: string, fallback: Json)
    ensures DecodeSection(StoredSection(data, key), fallback) == Some(Get(Some(data), key).GetOr(fallback))
  {
    match Get(Some(data), key)
    case None =>
    case Some(v) =>
      StringifyStart(v);
      ParseStringify(v);
  }

  /** What the project page stores, this page shows: each section the
      generation carried comes back equal to it, each one it lacked shows its
      default, and the form comes back as it was entered. */
  lemma DetailRoundTrip(form: Form, reply: MutationReply, userId: string, now: string, newId: string,
                        errors: Option<seq<string>>)
    requires DecideGenerate(form, reply, userId, now, newId).Accepted?
    ensures var o := DecideGenerate(form, reply, userId, now, newId);
      var d := o.data;
      LoadOutcome(Fetched(Some(o.record), errors)) == Ok(Loaded(
        Prd(Get(Some(d), "productRequirements").GetOr(DefaultRequirements),
            Get(Some(d), "userStories").GetOr(Arr([])),
            Get(Some(d), "risks").GetOr(Arr([])),
            Get(Some(d), "mvpScope").GetOr(DefaultScope)),
        form))
  {
    var o := DecideGenerate(form, reply, userId, now, newId);
    var d := o.data;
    assert o.record == NewRecord(form, userId, d, now, newId);
    SectionRoundTrip(d, "productRequirements", DefaultRequirements);
    SectionRoundTrip(d, "userStories", Arr([]));
    SectionRoundTrip(d, "risks", Arr([]));
    SectionRoundTrip(d, "mvpScope", DefaultScope);
  }

  /** End to end: when the handler succeeds with a truthy overview, the record
      the project page writes for it (see `HandlerSuccessStored`) is shown with
      exactly the four sections the handler validated. */
  lemma HandlerToDetail(form: Form, invoke: string -> GeneratePrd.ModelReply,
                        userId: string, now: string, newId: string)
    requires GeneratePrd.Handle(MutationArgs(form), invoke).envelope.Success?
    requires Truthy(Get(Get(Some(GeneratePrd.Handle(MutationArgs(form), invoke).envelope.data), "productRequirements"), "overview"))
    ensures var d := GeneratePrd.Handle(MutationArgs(form), invoke).envelope.data;
      var shown := LoadOutcome(Fetched(Some(NewRecord(form, userId, d, now, newId)), None));
      shown.Ok? && shown.value.form == form && Shows(shown.value.result, d)
  {
    var d := GeneratePrd.Handle(MutationArgs(form), invoke).envelope.data;
    var reply := Resolved(Some(GeneratePrd.HandlerResponse(MutationArgs(form), invoke)), None);
    HandlerSuccessStored(form, invoke, userId, now, newId);
    AllSectionsShown(form, reply, userId, now, newId, d);
  }

  /** The four sections shown are exactly the four members of `d`. */
  predicate Shows(prd: Prd, d: Json) {
    Get(Some(d), "productRequirements") == Some(prd.productRequirements) &&
    Get(Some(d), "userStories") == Some(prd.userStories) &&
    Get(Some(d), "risks") == Some(prd.risks) &&
    Get(Some(d), "mvpScope") == Some(prd.mvpScope)
  }

  lemma AllSectionsShown(form: Form, reply: MutationReply, userId: string, now: string, newId: string, d: Json)
    requires DecideGenerate(form, reply, userId, now, newId) == Accepted(NewRecord(form, userId, d, now, newId), d)
    requires forall k :: k in GeneratePrd.RequiredKeys ==> Get(Some(d), k).Some?
    ensures var shown := LoadOutcome(Fetched(Some(NewRecord(form, userId, d, now, newId)), None));
      shown.Ok? && shown.value.form == form && Shows(shown.value.result, d)
  {
    assert "productRequirements" in GeneratePrd.RequiredKeys && "userStories" in GeneratePrd.RequiredKeys;
    assert "risks" in GeneratePrd.RequiredKeys && "mvpScope" in GeneratePrd.RequiredKeys;
    DetailRoundTrip(form, reply, userId, now, newId, None);
  }

  /** The three ways of showing no project: the thrown message (or the
      fallback), the error messages joined by ", ", or "Project not found". */
  lemma LoadErrors(response: GetResponse)
    ensures response.FetchFailed? ==>
      LoadOutcome(response) == Err(if response.message == "" then LoadFallback else response.message)
    ensures response.Fetched? && response.data.None? && response.errors.Some? ==>
      LoadOutcome(response) == Err(LoadFailedPrefix + Join(response.errors.value, ", "))
    ensures response == Fetched(None, None) ==> LoadOutcome(response) == Err(NotFound)
    ensures LoadOutcome(response).Err? ==> LoadOutcome(response).error != ""
  {
  }
}
