/** The project wizard of src/pages/ProjectPage.tsx: a three-step form, then
    `handleGenerate`, which calls the `generatePRD` mutation, checks that the
    reply carries a product overview, writes one COMPLETED `Generation`
    record and bumps the cached profile's monthly counter.

    The data store is two maps from id to record plus a log of the writes the
    page issued, in order. The mutation's answer, the signed-in user, the clock
    and the id the store assigns are parameters of `HandleGenerate`. */
module ProjectPage {
  import opened Wrappers
  import opened Json
  import opened Schema
  import GeneratePrd

  /** The five wizard fields; every one starts as "". */
  datatype Form = Form(
    title: string,
    idea: string,
    targetMarket: string,
    constraints: string,
    additionalContext: string)

  const EmptyForm := Form("", "", "", "", "")

  /** The mutation is called with the form itself, so both optional arguments are sent. */
  function MutationArgs(f: Form): GeneratePrdArgs {
    GeneratePrdArgs(f.title, f.idea, f.targetMarket, Some(f.constraints), Some(f.additionalContext))
  }

  /** How the awaited `client.mutations.generatePRD` call settles: it resolves
      with `data` (null when absent) and `errors` (undefined when absent), or
      its promise rejects with an error carrying a message. */
  datatype MutationReply =
    | Resolved(data: Option<string>, errors: Option<seq<string>>)
    | MutationThrew(message: string)

  /** How an awaited store write settles: the store keeps it, the store
      resolves with `errors` (which the page never inspects), or the promise
      rejects with an error carrying a message. */
  datatype StoreAnswer = Kept | Refused | StoreThrew(message: string)

  /** A write the page sends to the data store. */
  datatype StoreWrite =
    | CreateGeneration(record: Generation)
    | SetGenerationsThisMonth(profileId: string, count: int)

  const TitleIdeaRequired := "Title and Idea are required."
  const Incomplete := "AI response was incomplete. Missing product overview."
  const GenerationFallback := "An error occurred during generation."
  /** The TypeError thrown by `errors[0].message` when `errors` is an empty array. */
  const NoFirstError := "Cannot read properties of undefined (reading 'message')"
  /** The SyntaxError `JSON.parse` throws; its wording belongs to the JavaScript engine. */
  const MalformedJson := "Unexpected token in JSON"

  /** The message shown for a thrown error: `err.message || default`. */
  function ErrorText(message: string): string {
    if message == "" then GenerationFallback else message
  }

  /** `parsedData?.data?.productRequirements?.overview`. */
  function OverviewOf(parsed: Json): Option<Json> {
    Get(Get(Get(Some(parsed), "data"), "productRequirements"), "overview")
  }

  /** `JSON.stringify(data[key])`: absent when the key is absent. */
  function StoredSection(data: Json, key: string): Option<string> {
    match Get(Some(data), key)
    case None => None
    case Some(v) => Some(Stringify(v))
  }

  /** The record `Generation.create` is given. */
  function NewRecord(form: Form, userId: string, data: Json, now: string, newId: string): Generation {
    Generation(newId, form.title, userId, form.idea, form.targetMarket,
      Some(form.constraints), Some(form.additionalContext),
      StoredSection(data, "productRequirements"), StoredSection(data, "userStories"),
      StoredSection(data, "risks"), StoredSection(data, "mvpScope"),
      Some(COMPLETED), Some(now), None)
  }

  /** How one `handleGenerate` ends: with a message, or with the record to
      create and the `data` object to show. */
  datatype Outcome = Rejected(message: string) | Accepted(record: Generation, data: Json)

  /** The part of `handleGenerate` that looks at the mutation's answer. */
  function DecideGenerate(form: Form, reply: MutationReply, userId: string, now: string, newId: string): Outcome {
    match reply
    case MutationThrew(m) => Rejected(ErrorText(m))
    case Resolved(_, Some(es)) => Rejected(ErrorText(if |es| > 0 then es[0] else NoFirstError))
    case Resolved(data, None) =>
      // JSON.parse(null) is null
      match Parse(data.GetOr("null"))
      case None => Rejected(ErrorText(MalformedJson))
      case Some(parsed) =>
        if !Truthy(OverviewOf(parsed)) then Rejected(Incomplete)
        else
          var d := Get(Some(parsed), "data").value;
          Accepted(NewRecord(form, userId, d, now, newId), d)
  }

  /** The counter write for a loaded profile: its cached count (or 0) plus one. */
  function CounterOf(p: UserProfile): StoreWrite {
    SetGenerationsThisMonth(p.id, p.generationsThisMonth.GetOr(0) + 1)
  }

  /** The writes an outcome issues, in order: the record, then the counter
      when a profile was loaded and the create did not throw. */
  function WritesOf(o: Outcome, cached: Option<UserProfile>, create: StoreAnswer): seq<StoreWrite> {
    match o
    case Rejected(_) => []
    case Accepted(record, _) =>
      [CreateGeneration(record)] +
      (if cached.Some? && !create.StoreThrew? then [CounterOf(cached.value)] else [])
  }

  /** The message thrown by the store calls of an accepted generation: the
      create's, else the update's when one was issued; none when neither threw. */
  function StoreThrow(cached: Option<UserProfile>, create: StoreAnswer, update: StoreAnswer): Option<string> {
    if create.StoreThrew? then Some(create.message)
    else if cached.Some? && update.StoreThrew? then Some(update.message)
    else None
  }

  /** Every create in the log is COMPLETED, and every counter update directly
      follows a create. */
  predicate WellOrdered(writes: seq<StoreWrite>) {
    (forall i :: 0 <= i < |writes| && writes[i].CreateGeneration? ==>
      writes[i].record.status == Some(COMPLETED)) &&
    (forall i :: 0 <= i < |writes| && writes[i].SetGenerationsThisMonth? ==>
      i > 0 && writes[i - 1].CreateGeneration?)
  }

  /** An update of `generationsThisMonth` on the stored profile with that id,
      when the store keeps it; an update of an unknown id changes nothing. */
  function Bump(profiles: map<string, UserProfile>, cached: Option<UserProfile>, update: StoreAnswer): map<string, UserProfile> {
    if cached.Some? && update.Kept? && cached.value.id in profiles then
      var n := cached.value.generationsThisMonth.GetOr(0) + 1;
      profiles[cached.value.id := profiles[cached.value.id].(generationsThisMonth := Some(n))]
    else profiles
  }

  class ProjectSession {
    var activeStep: int
    var isGenerating: bool
    var error: string
    var result: Option<Json>
    var userProfile: Option<UserProfile>
    var form: Form
    var generations: map<string, Generation>
    var profiles: map<string, UserProfile>
    var writes: seq<StoreWrite>

    ghost predicate Valid()
      reads this
    {
      0 <= activeStep <= 2 && WellOrdered(writes)
    }

    constructor(generations: map<string, Generation>, profiles: map<string, UserProfile>)
      ensures Valid()
      ensures activeStep == 0 && !isGenerating && error == "" && result.None? && userProfile.None?
      ensures form == EmptyForm && writes == []
      ensures this.generations == generations && this.profiles == profiles
    {
      activeStep := 0;
      isGenerating := false;
      error := "";
      result := None;
      userProfile := None;
      form := EmptyForm;
      this.generations := generations;
      this.profiles := profiles;
      writes := [];
    }

    /** The profile lookup on mount: the first profile listed for the user, if any. */
    method LoadProfile(listed: seq<UserProfile>)
      requires Valid()
      modifies this`userProfile
      ensures Valid()
      ensures userProfile == if |listed| > 0 then Some(listed[0]) else old(userProfile)
    {
      if |listed| > 0 {
        userProfile := Some(listed[0]);
      }
    }

    /** `setFormData` from the first two steps. */
    method SetForm(f: Form)
      requires Valid()
      modifies this`form
      ensures Valid() && form == f
    {
      form := f;
    }

    /** `handleNext`, offered on the first two steps: at step 0 the title and
        the idea must be non-empty; otherwise the error is cleared and the
        wizard moves on one step. */
    method HandleNext()
      requires Valid() && activeStep < 2
      modifies this`activeStep, this`error
      ensures Valid()
      ensures old(activeStep) == 0 && (form.title == "" || form.idea == "") ==>
        error == TitleIdeaRequired && activeStep == old(activeStep)
      ensures !(old(activeStep) == 0 && (form.title == "" || form.idea == "")) ==>
        error == "" && activeStep == old(activeStep) + 1
    {
      if activeStep == 0 && (form.title == "" || form.idea == "") {
        error := TitleIdeaRequired;
        return;
      }
      error := "";
      activeStep := activeStep + 1;
    }

    /** The Back button of the second and third steps. */
    method HandleBack()
      requires Valid() && activeStep > 0
      modifies this`activeStep
      ensures Valid() && activeStep == old(activeStep) - 1
    {
      activeStep := activeStep - 1;
    }

    /** The reset of the results view: back to the first step with no result. */
    method Reset()
      requires Valid()
      modifies this`result, this`activeStep
      ensures Valid() && result.None? && activeStep == 0
    {
      result := None;
      activeStep := 0;
    }

    /** The steps of `handleGenerate` after an accepted reply: create the
        record, then, when a profile was loaded, update its counter, then show
        the data. A store call that throws skips the steps after it;
        `thrown` is its message. */
    method Commit(record: Generation, data: Json, create: StoreAnswer, update: StoreAnswer)
      returns (thrown: Option<string>)
      modifies this`generations, this`profiles, this`writes, this`result
      ensures thrown == StoreThrow(userProfile, create, update)
      ensures writes == old(writes) + WritesOf(Accepted(record, data), userProfile, create)
      ensures generations == (if create.Kept? then old(generations)[record.id := record] else old(generations))
      ensures profiles == (if create.StoreThrew? then old(profiles) else Bump(old(profiles), userProfile, update))
      ensures result == (if thrown.None? then Some(data) else old(result))
    {
      writes := writes + [CreateGeneration(record)];
      if create.StoreThrew? {
        return Some(create.message);
      }
      if create.Kept? {
        generations := generations[record.id := record];
      }
      if userProfile.Some? {
        var p := userProfile.value;
        writes := writes + [CounterOf(p)];
        if update.StoreThrew? {
          return Some(update.message);
        }
        if update.Kept? && p.id in profiles {
          profiles := profiles[p.id := profiles[p.id].(generationsThisMonth := Some(p.generationsThisMonth.GetOr(0) + 1))];
        }
      }
      result := Some(data);
      thrown := None;
    }

    /** `handleGenerate`. `create` and `update` say how the store settles the
        two writes; an answer with `errors` is not inspected by the page. */
    method HandleGenerate(reply: MutationReply, userId: string, now: string, newId: string,
                          create: StoreAnswer, update: StoreAnswer)
      requires Valid()
      modifies this`isGenerating, this`error, this`result, this`generations, this`profiles, this`writes
      ensures Valid()
      ensures !isGenerating
      ensures writes == old(writes) + WritesOf(DecideGenerate(form, reply, userId, now, newId), userProfile, create)
      ensures DecideGenerate(form, reply, userId, now, newId).Rejected? ==>
        error == DecideGenerate(form, reply, userId, now, newId).message && result == old(result) &&
        generations == old(generations) && profiles == old(profiles)
      ensures DecideGenerate(form, reply, userId, now, newId).Accepted? ==>
        var o := DecideGenerate(form, reply, userId, now, newId);
        var thrown := StoreThrow(userProfile, create, update);
        generations == (if create.Kept? then old(generations)[newId := o.record] else old(generations)) &&
        profiles == (if create.StoreThrew? then old(profiles) else Bump(old(profiles), userProfile, update)) &&
        (thrown.None? ==> error == "" && result == Some(o.data)) &&
        (thrown.Some? ==> error == ErrorText(thrown.value) && result == old(result))
    {
      WritesPreserveOrder(writes, form, reply, userId, now, newId, userProfile, create);
      isGenerating := true;
      error := "";
      // the checks of the mutation's answer, up to the first store call
      var o := DecideGenerate(form, reply, userId, now, newId);
      if o.Rejected? {
        error := o.message;
      } else {
        var thrown := Commit(o.record, o.data, create, update);
        if thrown.Some? {
          error := ErrorText(thrown.value);
        }
      }
      isGenerating := false;
    }
  }

  // ---------------------------------------------------------------------------
  // Properties of a generation
  // ---------------------------------------------------------------------------

  /** A mutation call that throws, or that returns errors, is reported by its
      message (the first error's) and nothing is written. */
  lemma MutationErrorsReported(form: Form, reply: MutationReply, userId: string, now: string, newId: string,
                               cached: Option<UserProfile>, create: StoreAnswer)
    requires reply.MutationThrew? || (reply.errors.Some? && |reply.errors.value| > 0)
    ensures DecideGenerate(form, reply, userId, now, newId) ==
      Rejected(ErrorText(if reply.MutationThrew? then reply.message else reply.errors.value[0]))
    ensures WritesOf(DecideGenerate(form, reply, userId, now, newId), cached, create) == []
  {
  }

  /** A generation is accepted exactly when the mutation resolves without
      errors and its reply parses and carries a truthy
      `data.productRequirements.overview`; the record it writes is COMPLETED,
      stamped with the time, and copies the form and the user. */
  lemma AcceptedIff(form: Form, reply: MutationReply, userId: string, now: string, newId: string)
    ensures var o := DecideGenerate(form, reply, userId, now, newId);
      o.Accepted? <==>
        reply.Resolved? && reply.errors.None? && Parse(reply.data.GetOr("null")).Some? &&
        Truthy(OverviewOf(Parse(reply.data.GetOr("null")).value))
    ensures var o := DecideGenerate(form, reply, userId, now, newId);
      o.Accepted? ==>
        var r := o.record;
        r.status == Some(COMPLETED) && r.completedAt == Some(now) && r.errorMessage.None? &&
        r.id == newId && r.userId == userId &&
        (r.title, r.idea, r.targetMarket) == (form.title, form.idea, form.targetMarket) &&
        r.constraints == Some(form.constraints) && r.additionalContext == Some(form.additionalContext) &&
        Some(o.data) == Get(Parse(reply.data.GetOr("null")), "data")
    ensures var o := DecideGenerate(form, reply, userId, now, newId);
      o.Rejected? ==> o.message != ""
  {
  }

  /** The counter write is the cached count (or 0) plus one, issued only when a
      profile was loaded and the create did not throw, always after the record,
      and independent of the reply: two accepted generations in one session
      write the same value. */
  lemma CounterWrite(o1: Outcome, o2: Outcome, cached: Option<UserProfile>, create: StoreAnswer)
    requires o1.Accepted? && o2.Accepted?
    ensures |WritesOf(o1, cached, create)| == (if cached.Some? && !create.StoreThrew? then 2 else 1)
    ensures WritesOf(o1, cached, create)[0] == CreateGeneration(o1.record)
    ensures cached.Some? && !create.StoreThrew? ==>
      WritesOf(o1, cached, create)[1] == WritesOf(o2, cached, create)[1] ==
        SetGenerationsThisMonth(cached.value.id, cached.value.generationsThisMonth.GetOr(0) + 1)
    ensures WellOrdered(WritesOf(o1, cached, create)) <==> o1.record.status == Some(COMPLETED)
  {
  }

  /** A store call that throws after an accepted reply ends the generation
      with its message. A thrown create issues no counter write. A thrown
      update comes after the record was sent, so the record stays written
      while the counter is left as it was and no result is shown. */
  lemma StoreFailures(o: Outcome, cached: Option<UserProfile>, create: StoreAnswer, update: StoreAnswer,
                      profiles: map<string, UserProfile>)
    requires o.Accepted?
    ensures create.StoreThrew? ==>
      StoreThrow(cached, create, update) == Some(create.message) &&
      WritesOf(o, cached, create) == [CreateGeneration(o.record)]
    ensures !create.StoreThrew? && cached.Some? && update.StoreThrew? ==>
      StoreThrow(cached, create, update) == Some(update.message) &&
      WritesOf(o, cached, create) == [CreateGeneration(o.record), CounterOf(cached.value)] &&
      Bump(profiles, cached, update) == profiles
    ensures StoreThrow(cached, create, update).None? <==>
      !create.StoreThrew? && (cached.None? || !update.StoreThrew?)
  {
  }

  /** Appending the writes of a decided outcome keeps the log well ordered. */
  lemma WritesPreserveOrder(log: seq<StoreWrite>, form: Form, reply: MutationReply, userId: string,
                            now: string, newId: string, cached: Option<UserProfile>, create: StoreAnswer)
    requires WellOrdered(log)
    ensures WellOrdered(log + WritesOf(DecideGenerate(form, reply, userId, now, newId), cached, create))
  {
    var o := DecideGenerate(form, reply, userId, now, newId);
    var w := log + WritesOf(o, cached, create);
    if o.Accepted? {
      forall i | 0 <= i < |w| && w[i].SetGenerationsThisMonth?
        ensures i > 0 && w[i - 1].CreateGeneration?
      {
        if i >= |log| {
          assert i == |log| + 1;
        }
      }
    }
  }

  /** Every failure envelope of the handler reaches the page as the missing
      overview message: the envelope has no `data`, so no record is written. */
  lemma HandlerFailureIsIncomplete(form: Form, invoke: string -> GeneratePrd.ModelReply,
                                   userId: string, now: string, newId: string)
    requires GeneratePrd.Handle(MutationArgs(form), invoke).envelope.Failure?
    ensures DecideGenerate(form, Resolved(Some(GeneratePrd.HandlerResponse(MutationArgs(form), invoke)), None),
                           userId, now, newId) == Rejected(Incomplete)
  {
    GeneratePrd.ResponseShape(MutationArgs(form), invoke);
  }

  /** A success envelope whose overview is truthy is accepted, and the record
      stores each of the four sections the handler validated as its JSON text. */
  lemma HandlerSuccessStored(form: Form, invoke: string -> GeneratePrd.ModelReply,
                             userId: string, now: string, newId: string)
    requires GeneratePrd.Handle(MutationArgs(form), invoke).envelope.Success?
    requires Truthy(Get(Get(Some(GeneratePrd.Handle(MutationArgs(form), invoke).envelope.data), "productRequirements"), "overview"))
    ensures var d := GeneratePrd.Handle(MutationArgs(form), invoke).envelope.data;
      var o := DecideGenerate(form, Resolved(Some(GeneratePrd.HandlerResponse(MutationArgs(form), invoke)), None),
                              userId, now, newId);
      o == Accepted(NewRecord(form, userId, d, now, newId), d) &&
      forall k :: k in GeneratePrd.RequiredKeys ==>
        Get(Some(d), k).Some? && StoredSection(d, k) == Some(Stringify(Get(Some(d), k).value))
  {
    GeneratePrd.ResponseShape(MutationArgs(form), invoke);
    GeneratePrd.SuccessCarriesParsedReply(MutationArgs(form), invoke);
  }
}
