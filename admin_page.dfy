/** The administration page of src/pages/AdminPage.tsx: the case-insensitive
    search over users and generations, the status counts, the tally of users
    per plan, the status chip colour, and deleting a user or a generation
    through the confirmation dialog. */
module AdminPage {
  import opened Wrappers
  import opened Text
  import opened Schema
  import opened Lists

  // ---------------------------------------------------------------------------
  // Search
  // ---------------------------------------------------------------------------

  /** `field.toLowerCase().includes(search.toLowerCase())`. */
  predicate Matches(field: string, search: string) {
    Includes(Lower(field), Lower(search))
  }

  predicate UserMatches(u: UserProfile, search: string) {
    Matches(u.email, search) || Matches(u.userId, search)
  }

  predicate GenerationMatches(g: Generation, search: string) {
    Matches(g.title, search) || Matches(g.userId, search) || Matches(g.targetMarket, search)
  }

  /** `filteredUsers`. */
  function FilteredUsers(users: seq<UserProfile>, search: string): seq<UserProfile> {
    Filter(users, (u: UserProfile) => UserMatches(u, search))
  }

  /** `filteredGens`. */
  function FilteredGenerations(gens: seq<Generation>, search: string): seq<Generation> {
    Filter(gens, (g: Generation) => GenerationMatches(g, search))
  }

  /** A user is listed exactly when the search text, ignoring case, occurs in
      the email or the user id; the listed users keep their order. */
  lemma FilteredUsersSpec(users: seq<UserProfile>, more: seq<UserProfile>, search: string)
    ensures forall u :: u in FilteredUsers(users, search) <==>
      u in users &&
      ((exists i :: OccursAt(Lower(u.email), Lower(search), i)) ||
       (exists i :: OccursAt(Lower(u.userId), Lower(search), i)))
    ensures FilteredUsers(users + more, search) == FilteredUsers(users, search) + FilteredUsers(more, search)
  {
    forall u: UserProfile
      ensures UserMatches(u, search) <==>
        (exists i :: OccursAt(Lower(u.email), Lower(search), i)) ||
        (exists i :: OccursAt(Lower(u.userId), Lower(search), i))
    {
      IncludesIff(Lower(u.email), Lower(search));
      IncludesIff(Lower(u.userId), Lower(search));
    }
    FilterAppend(users, more, (u: UserProfile) => UserMatches(u, search));
  }

  /** A generation is listed exactly when the search text, ignoring case,
      occurs in its title, user id or target market; order is kept. */
  lemma FilteredGenerationsSpec(gens: seq<Generation>, more: seq<Generation>, search: string)
    ensures forall g :: g in FilteredGenerations(gens, search) <==>
      g in gens &&
      ((exists i :: OccursAt(Lower(g.title), Lower(search), i)) ||
       (exists i :: OccursAt(Lower(g.userId), Lower(search), i)) ||
       (exists i :: OccursAt(Lower(g.targetMarket), Lower(search), i)))
    ensures FilteredGenerations(gens + more, search) ==
      FilteredGenerations(gens, search) + FilteredGenerations(more, search)
  {
    forall g: Generation
      ensures GenerationMatches(g, search) <==>
        (exists i :: OccursAt(Lower(g.title), Lower(search), i)) ||
        (exists i :: OccursAt(Lower(g.userId), Lower(search), i)) ||
        (exists i :: OccursAt(Lower(g.targetMarket), Lower(search), i))
    {
      IncludesIff(Lower(g.title), Lower(search));
      IncludesIff(Lower(g.userId), Lower(search));
      IncludesIff(Lower(g.targetMarket), Lower(search));
    }
    FilterAppend(gens, more, (g: Generation) => GenerationMatches(g, search));
  }

  /** An empty search lists everything, and the case of the search text does
      not matter. */
  lemma SearchDefaults(users: seq<UserProfile>, gens: seq<Generation>, search: string)
    ensures FilteredUsers(users, "") == users
    ensures FilteredGenerations(gens, "") == gens
    ensures FilteredUsers(users, Lower(search)) == FilteredUsers(users, search)
    ensures FilteredGenerations(gens, Lower(search)) == FilteredGenerations(gens, search)
  {
    forall i | 0 <= i < |users| ensures UserMatches(users[i], "") {
      IncludesEmpty(Lower(users[i].email));
    }
    FilterKeepsAll(users, (u: UserProfile) => UserMatches(u, ""));
    forall i | 0 <= i < |gens| ensures GenerationMatches(gens[i], "") {
      IncludesEmpty(Lower(gens[i].title));
    }
    FilterKeepsAll(gens, (g: Generation) => GenerationMatches(g, ""));
    LowerIdempotent(search);
    FilterSameTest(users, (u: UserProfile) => UserMatches(u, Lower(search)), (u: UserProfile) => UserMatches(u, search));
    FilterSameTest(gens, (g: Generation) => GenerationMatches(g, Lower(search)), (g: Generation) => GenerationMatches(g, search));
  }

  // ---------------------------------------------------------------------------
  // Counts
  // ---------------------------------------------------------------------------

  /** `generations.filter(g => g.status === s).length`. */
  function StatusCount(gens: seq<Generation>, s: Status): nat {
    Count(gens, (g: Generation) => g.status == Some(s))
  }

  /** Completed and failed generations are counted by exact status and never
      both, so together they are at most all generations. */
  lemma StatusCountsBounded(gens: seq<Generation>)
    ensures StatusCount(gens, COMPLETED) + StatusCount(gens, FAILED) <= |gens|
    ensures StatusCount(gens, COMPLETED) == |gens| <==> forall i :: 0 <= i < |gens| ==> gens[i].status == Some(COMPLETED)
  {
    CountDisjoint(gens, (g: Generation) => g.status == Some(COMPLETED), (g: Generation) => g.status == Some(FAILED));
    var keep := (g: Generation) => g.status == Some(COMPLETED);
    if forall i :: 0 <= i < |gens| ==> gens[i].status == Some(COMPLETED) {
      FilterKeepsAll(gens, keep);
    } else {
      var i :| 0 <= i < |gens| && gens[i].status != Some(COMPLETED);
      FilterLeavesOut(gens, keep, i);
    }
  }

  /** The plan a user is tallied under: `u.plan || "FREE"`. */
  function PlanOf(u: UserProfile): Plan {
    u.plan.GetOr(FREE)
  }

  /** How many of the users are tallied under plan `p`. */
  function PlanTally(users: seq<UserProfile>, p: Plan): nat {
    if |users| == 0 then 0
    else PlanTally(users[..|users| - 1], p) + (if PlanOf(users[|users| - 1]) == p then 1 else 0)
  }

  /** Every user is tallied under exactly one plan. */
  lemma {:induction false} PlanTallySum(users: seq<UserProfile>)
    ensures PlanTally(users, FREE) + PlanTally(users, PRO) + PlanTally(users, ENTERPRISE) == |users|
  {
    if |users| > 0 {
      PlanTallySum(users[..|users| - 1]);
    }
  }

  /** `planCounts`: the `reduce` that adds one to the entry of each user's plan.
      A plan has an entry exactly when some user is on it. */
  method PlanCounts(users: seq<UserProfile>) returns (acc: map<Plan, nat>)
    ensures forall p :: p in acc <==> PlanTally(users, p) > 0
    ensures forall p :: p in acc ==> acc[p] == PlanTally(users, p)
  {
    acc := map[];
    var i := 0;
    while i < |users|
      invariant 0 <= i <= |users|
      invariant forall p :: p in acc <==> PlanTally(users[..i], p) > 0
      invariant forall p :: p in acc ==> acc[p] == PlanTally(users[..i], p)
    {
      var plan := PlanOf(users[i]);
      acc := acc[plan := (if plan in acc then acc[plan] else 0) + 1];
      assert users[..i + 1][..i] == users[..i];
      i := i + 1;
    }
    assert users[..i] == users;
  }

  // ---------------------------------------------------------------------------
  // Status chip
  // ---------------------------------------------------------------------------

  /** `statusColor`: the chip colour of a status, "default" for none. */
  function StatusColor(s: Option<Status>): string {
    match s
    case Some(COMPLETED) => "success"
    case Some(PROCESSING) => "warning"
    case Some(FAILED) => "error"
    case _ => "default"
  }

  /** Each of the three named statuses has its own colour; PENDING and a
      missing status share the default. */
  lemma StatusColorDistinguishes(s: Option<Status>, t: Option<Status>)
    ensures StatusColor(s) == "default" <==> s.None? || s == Some(PENDING)
    ensures StatusColor(s) == StatusColor(t) && StatusColor(s) != "default" ==> s == t
  {
  }

  // ---------------------------------------------------------------------------
  // Deleting through the confirmation dialog
  // ---------------------------------------------------------------------------

  datatype Kind = UserKind | GenerationKind

  datatype DeleteDialog = DeleteDialog(open: bool, kind: Kind, id: string, entryLabel: string)

  const ClosedDialog := DeleteDialog(false, UserKind, "", "")
  const DeleteFallback := "Delete failed"

  /** What the delete call gives: the `errors` of the result, or a thrown error. */
  datatype DeleteReply = Deleted(errors: Option<seq<string>>) | DeleteThrew(message: string)

  function RemoveUser(users: seq<UserProfile>, id: string): seq<UserProfile> {
    Filter(users, (u: UserProfile) => u.id != id)
  }

  function RemoveGeneration(gens: seq<Generation>, id: string): seq<Generation> {
    Filter(gens, (g: Generation) => g.id != id)
  }

  /** `result.errors?.length`: some errors came back. */
  predicate Failed(errors: Option<seq<string>>) {
    errors.Some? && |errors.value| > 0
  }

  /** Removing by id drops exactly the entries with that id and keeps the rest
      in order; removing again changes nothing. */
  lemma RemoveSpec(users: seq<UserProfile>, gens: seq<Generation>, id: string)
    ensures forall u :: u in RemoveUser(users, id) <==> u in users && u.id != id
    ensures forall g :: g in RemoveGeneration(gens, id) <==> g in gens && g.id != id
    ensures RemoveUser(RemoveUser(users, id), id) == RemoveUser(users, id)
    ensures RemoveGeneration(RemoveGeneration(gens, id), id) == RemoveGeneration(gens, id)
    ensures (forall i :: 0 <= i < |users| ==> users[i].id != id) ==> RemoveUser(users, id) == users
  {
    FilterIdempotent(users, (u: UserProfile) => u.id != id);
    FilterIdempotent(gens, (g: Generation) => g.id != id);
    if forall i :: 0 <= i < |users| ==> users[i].id != id {
      FilterKeepsAll(users, (u: UserProfile) => u.id != id);
    }
  }

  class AdminConsole {
    var users: seq<UserProfile>
    var generations: seq<Generation>
    var userError: string
    var genError: string
    var deleteDialog: DeleteDialog
    var deleteLoading: bool

    constructor(users: seq<UserProfile>, generations: seq<Generation>)
      ensures this.users == users && this.generations == generations
      ensures userError == "" && genError == "" && deleteDialog == ClosedDialog && !deleteLoading
    {
      this.users := users;
      this.generations := generations;
      userError := "";
      genError := "";
      deleteDialog := ClosedDialog;
      deleteLoading := false;
    }

    /** `confirmDelete`: open the dialog for one entry. */
    method ConfirmDelete(kind: Kind, id: string, entryLabel: string)
      modifies this`deleteDialog
      ensures deleteDialog == DeleteDialog(true, kind, id, entryLabel)
    {
      deleteDialog := DeleteDialog(true, kind, id, entryLabel);
    }

    /** `handleDelete`: delete the entry named by the dialog. On success it
        leaves the matching list and only that list; on failure the lists stay
        and the matching error is set. The dialog closes in every outcome. */
    method HandleDelete(reply: DeleteReply)
      modifies this
      ensures deleteDialog == ClosedDialog && !deleteLoading
      ensures var d := old(deleteDialog);
        match reply
        case Deleted(errors) =>
          if Failed(errors) then
            users == old(users) && generations == old(generations) &&
            (if d.kind == UserKind then userError == Join(errors.value, ", ") && genError == old(genError)
             else genError == Join(errors.value, ", ") && userError == old(userError))
          else
            userError == old(userError) && genError == old(genError) &&
            (if d.kind == UserKind then users == RemoveUser(old(users), d.id) && generations == old(generations)
             else generations == RemoveGeneration(old(generations), d.id) && users == old(users))
        case DeleteThrew(message) =>
          var msg := if message == "" then DeleteFallback else message;
          users == old(users) && generations == old(generations) &&
          (if d.kind == UserKind then userError == msg && genError == old(genError)
           else genError == msg && userError == old(userError))
    {
      deleteLoading := true;
      var d := deleteDialog;
      match reply {
        case Deleted(errors) =>
          if d.kind == UserKind {
            if Failed(errors) {
              userError := Join(errors.value, ", ");
            } else {
              users := RemoveUser(users, d.id);
            }
          } else {
            if Failed(errors) {
              genError := Join(errors.value, ", ");
            } else {
              generations := RemoveGeneration(generations, d.id);
            }
          }
        case DeleteThrew(message) =>
          var msg := if message == "" then DeleteFallback else message;
          if d.kind == UserKind {
            userError := msg;
          } else {
            genError := msg;
          }
      }
      deleteLoading := false;
      deleteDialog := ClosedDialog;
    }
  }
}
