/** The data schema of amplify/data/resource.ts: the arguments of the
    `generatePRD` mutation and the `UserProfile`, `Generation` and `PlanQuota`
    records with their enums. A `.required()` field is a plain value, any
    other field an `Option`; ids are assigned by the store. The `a.json()`
    output sections are held as the JSON text the client writes into them. */
module Schema {
  import opened Wrappers

  datatype Status = PENDING | PROCESSING | COMPLETED | FAILED
  datatype Plan = FREE | PRO | ENTERPRISE
  datatype Role = USER | ADMIN

  /** Arguments of the `generatePRD` mutation (which returns a string). */
  datatype GeneratePrdArgs = GeneratePrdArgs(
    title: string,
    idea: string,
    targetMarket: string,
    constraints: Option<string>,
    additionalContext: Option<string>)

  datatype UserProfile = UserProfile(
    id: string,
    userId: string,
    email: string,
    role: Option<Role>,
    plan: Option<Plan>,
    generationsThisMonth: Option<int>,
    monthResetDate: Option<string>)

  datatype Generation = Generation(
    id: string,
    title: string,
    userId: string,
    idea: string,
    targetMarket: string,
    constraints: Option<string>,
    additionalContext: Option<string>,
    productRequirements: Option<string>,
    userStories: Option<string>,
    risks: Option<string>,
    mvpScope: Option<string>,
    status: Option<Status>,
    completedAt: Option<string>,
    errorMessage: Option<string>)

  datatype PlanQuota = PlanQuota(
    id: string,
    plan: Option<Plan>,
    monthlyLimit: int,
    description: Option<string>)

  // ---------------------------------------------------------------------------
  // Enum values as they travel on the wire
  // ---------------------------------------------------------------------------

  function StatusName(s: Status): string {
    match s
    case PENDING => "PENDING"
    case PROCESSING => "PROCESSING"
    case COMPLETED => "COMPLETED"
    case FAILED => "FAILED"
  }

  /** The status a wire string denotes, if it is one of the four. */
  function ParseStatus(name: string): Option<Status> {
    if name == "PENDING" then Some(PENDING)
    else if name == "PROCESSING" then Some(PROCESSING)
    else if name == "COMPLETED" then Some(COMPLETED)
    else if name == "FAILED" then Some(FAILED)
    else None
  }

  /** The four status names and nothing else are statuses, each naming one. */
  lemma StatusNames(name: string, s: Status)
    ensures ParseStatus(StatusName(s)) == Some(s)
    ensures ParseStatus(name) == Some(s) <==> name == StatusName(s)
  {
  }

  function PlanName(p: Plan): string {
    match p
    case FREE => "FREE"
    case PRO => "PRO"
    case ENTERPRISE => "ENTERPRISE"
  }

  function ParsePlan(name: string): Option<Plan> {
    if name == "FREE" then Some(FREE)
    else if name == "PRO" then Some(PRO)
    else if name == "ENTERPRISE" then Some(ENTERPRISE)
    else None
  }

  /** The three plan names and nothing else are plans, each naming one. */
  lemma PlanNames(name: string, p: Plan)
    ensures ParsePlan(PlanName(p)) == Some(p)
    ensures ParsePlan(name) == Some(p) <==> name == PlanName(p)
  {
  }

  function RoleName(r: Role): string {
    match r
    case USER => "USER"
    case ADMIN => "ADMIN"
  }

  function ParseRole(name: string): Option<Role> {
    if name == "USER" then Some(USER)
    else if name == "ADMIN" then Some(ADMIN)
    else None
  }

  /** USER and ADMIN and nothing else are roles. */
  lemma RoleNames(name: string, r: Role)
    ensures ParseRole(RoleName(r)) == Some(r)
    ensures ParseRole(name) == Some(r) <==> name == RoleName(r)
  {
  }

  // ---------------------------------------------------------------------------
  // Creating a profile
  // ---------------------------------------------------------------------------

  /** The profile the store keeps for a create call: `generationsThisMonth`
      takes its schema default of 0 when the caller leaves it out. */
  function CreateUserProfile(
    id: string, userId: string, email: string, role: Option<Role>, plan: Option<Plan>,
    generationsThisMonth: Option<int>, monthResetDate: Option<string>): (p: UserProfile)
    ensures p.generationsThisMonth.Some?
    ensures p.generationsThisMonth.value == (if generationsThisMonth.Some? then generationsThisMonth.value else 0)
    ensures (p.id, p.userId, p.email, p.role, p.plan, p.monthResetDate) == (id, userId, email, role, plan, monthResetDate)
  {
    UserProfile(id, userId, email, role, plan, Some(generationsThisMonth.GetOr(0)), monthResetDate)
  }
}
