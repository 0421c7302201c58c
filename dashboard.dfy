/** The dashboard of src/pages/DashboardPage.tsx: the signed-in user's
    projects, the line that counts them against the monthly quota, the gate on
    the New Project button, and the colour of a status. */
module Dashboard {
  import opened Wrappers
  import opened Text
  import opened Schema
  import opened Lists
  import AdminPage

  /** The hard-coded monthly quota. */
  const Quota := 5

  const LimitReached := "You have reached your monthly limit of 5 projects"

  /** `renderProjectCount`: how many projects there are and how many remain. */
  function RenderProjectCount(n: nat): string {
    var remaining := Quota - n;
    if n == 0 then NatToString(Quota) + " projects remaining"
    else if n == 1 then "1 project (" + IntToString(remaining) + " remaining)"
    else if n == Quota then LimitReached
    else NatToString(n) + " projects (" + IntToString(remaining) + " remaining)"
  }

  /** The three named cases. */
  lemma ProjectCountMessages()
    ensures RenderProjectCount(0) == "5 projects remaining"
    ensures RenderProjectCount(1) == "1 project (4 remaining)"
    ensures RenderProjectCount(5) == "You have reached your monthly limit of 5 projects"
  {
    assert NatToString(5) == [DigitChar(5)] == "5";
    assert IntToString(4) == NatToString(4) == [DigitChar(4)] == "4";
  }

  /** The closing words of every line that counts both ways. */
  const RemainingTail := " remaining)"

  /** Any other count states the count, then the remaining figure between
      " projects (" and " remaining)". The figure is the difference to the
      quota: its digits when some quota is left, and a minus sign before the
      overshoot's digits when the count is past the quota. */
  lemma ProjectCountGeneral(n: nat)
    requires n != 0 && n != 1 && n != Quota
    ensures var msg := RenderProjectCount(n);
      var head := NatToString(n) + " projects (";
      OccursAt(msg, NatToString(n), 0) && DigitsValue(NatToString(n)) == n &&
      |msg| > |head| + |RemainingTail| &&
      msg[..|head|] == head && msg[|msg| - |RemainingTail|..] == RemainingTail &&
      var figure := msg[|head|..|msg| - |RemainingTail|];
      (figure[0] == '-' <==> n > Quota) &&
      (n < Quota ==> AllDigits(figure) && DigitsValue(figure) == Quota - n) &&
      (n > Quota ==> AllDigits(figure[1..]) && DigitsValue(figure[1..]) == n - Quota)
  {
    var d := NatToString(n);
    var r := IntToString(Quota - n);
    GeneralLine(n);
    LineShape(d, r, RenderProjectCount(n));
  }

  /** The general line, grouped so that its pieces can be cut apart. */
  lemma GeneralLine(n: nat)
    requires n != 0 && n != 1 && n != Quota
    ensures RenderProjectCount(n) == NatToString(n) + " projects (" + (IntToString(Quota - n) + RemainingTail)
  {
  }

  /** A line made of a count, " projects (", a figure and " remaining)" can
      be cut back into those pieces. */
  lemma LineShape(d: string, r: string, msg: string)
    requires |r| > 0 && msg == d + " projects (" + (r + RemainingTail)
    ensures var head := d + " projects (";
      OccursAt(msg, d, 0) && |msg| > |head| + |RemainingTail| && msg[..|head|] == head &&
      msg[|head|..|msg| - |RemainingTail|] == r && msg[|msg| - |RemainingTail|..] == RemainingTail
  {
    var head := d + " projects (";
    assert msg[..|head|] == head;
    assert msg == d + (" projects (" + (r + RemainingTail));
    assert msg[..|d|] == d;
    assert msg[|head|..] == r + RemainingTail;
    assert msg[|head|..][..|r|] == r;
  }

  /** The New Project button: shown while fewer projects than the quota are listed. */
  predicate ShowNewProject(listed: nat) {
    listed < Quota
  }

  /** The button disappears exactly at the count whose line says the limit is
      reached, and stays hidden beyond it. */
  lemma NewProjectGate(n: nat)
    ensures ShowNewProject(n) <==> Quota - n > 0
    ensures n == Quota ==> !ShowNewProject(n) && RenderProjectCount(n) == LimitReached
    ensures RenderProjectCount(n) == LimitReached ==> !ShowNewProject(n)
  {
    if n == 0 || n == 1 {
      ProjectCountMessages();
    } else if n != Quota {
      ProjectCountGeneral(n);
      var msg := RenderProjectCount(n);
      assert msg[|msg| - 1] == RemainingTail[|RemainingTail| - 1] == ')';
      assert LimitReached[|LimitReached| - 1] == 's';
    }
  }

  /** `getStatusColor`. */
  function StatusHex(s: Option<Status>): string {
    match s
    case Some(COMPLETED) => "#10b981"
    case Some(PROCESSING) => "#f59e0b"
    case Some(FAILED) => "#ef4444"
    case _ => "#6b7280"
  }

  /** The dashboard and the admin chips tell the same statuses apart: the grey
      of the one is the default of the other, and each named status has its own
      colour in both. */
  lemma StatusColoursAgree(s: Option<Status>, t: Option<Status>)
    ensures StatusHex(s) == "#6b7280" <==> AdminPage.StatusColor(s) == "default"
    ensures StatusHex(s) == StatusHex(t) <==> AdminPage.StatusColor(s) == AdminPage.StatusColor(t)
  {
  }

  /** A row of the dashboard list. */
  datatype Project = Project(id: string, title: string, status: Option<Status>)

  function ToProject(g: Generation): Project {
    Project(g.id, g.title, g.status)
  }

  /** The rows the dashboard asks for: the generations whose `userId` equals
      the signed-in user's, each as a row. */
  function OwnedProjects(gens: seq<Generation>, userId: string): (rows: seq<Project>)
    ensures |rows| == Count(gens, (g: Generation) => g.userId == userId)
  {
    var owned := Filter(gens, (g: Generation) => g.userId == userId);
    seq(|owned|, i requires 0 <= i < |owned| => ToProject(owned[i]))
  }

  /** Every row comes from one of the user's own generations, and each of those
      appears. */
  lemma OwnedProjectsSpec(gens: seq<Generation>, userId: string)
    ensures forall r :: r in OwnedProjects(gens, userId) ==>
      exists g :: g in gens && g.userId == userId && ToProject(g) == r
    ensures forall g :: g in gens && g.userId == userId ==> ToProject(g) in OwnedProjects(gens, userId)
  {
    var owned := Filter(gens, (g: Generation) => g.userId == userId);
    var rows := OwnedProjects(gens, userId);
    forall r | r in rows
      ensures exists g :: g in gens && g.userId == userId && ToProject(g) == r
    {
      var i :| 0 <= i < |rows| && rows[i] == r;
      assert owned[i] in owned;
    }
    forall g | g in gens && g.userId == userId
      ensures ToProject(g) in rows
    {
      assert g in owned;
      var i :| 0 <= i < |owned| && owned[i] == g;
      assert rows[i] == ToProject(g);
    }
  }
}
