/** The navigation entries of src/components/Sidebar.jsx and the
    `checkUser([...])` guard each one is rendered under. */
module Sidebar {
  import opened Options
  import opened Browser
  import opened CheckUser

  datatype NavEntry = Dashboard | Admins | Students | Courses | Teachers | Payments | Settings

  /** The allowed-roles list of an entry's guard; `None` for the entries
      rendered without a guard. */
  function Guard(e: NavEntry): (roles: Option<seq<string>>)
    ensures roles.None? <==> e == Dashboard || e == Settings
  {
    match e
    case Dashboard => None
    case Admins => Some(["root"])
    case Students => Some(["root", "admin", "teacher"])
    case Courses => Some(["root", "admin", "teacher"])
    case Teachers => Some(["root", "admin"])
    case Payments => Some(["root", "admin"])
    case Settings => None
  }

  /** Whether the entry is rendered for the given browser state. */
  function Visible(e: NavEntry, storage: map<string, string>, host: string, env: Env): bool {
    match Guard(e)
    case None => true
    case Some(roles) => Allowed(roles, storage, host, env)
  }

  /** The entries a resolved role (or none) sees. */
  function VisibleFor(role: Option<string>): (entries: set<NavEntry>)
    ensures Dashboard in entries && Settings in entries
  {
    set e: NavEntry | match Guard(e) case None => true case Some(roles) => role.Some? && role.value in roles
  }

  /** The rendered entries are exactly those of the resolved role. */
  lemma VisibleByRole(e: NavEntry, storage: map<string, string>, host: string, env: Env)
    ensures Visible(e, storage, host, env) <==> e in VisibleFor(ResolveRole(storage, host, env))
  {
  }

  /** Visibility per role: dashboard and settings for everyone, admins for
      "root" alone, students and courses for the three staff roles,
      teachers and payments for "root" and "admin". */
  lemma Table()
    ensures VisibleFor(Some("root")) == {Dashboard, Admins, Students, Courses, Teachers, Payments, Settings}
    ensures VisibleFor(Some("admin")) == {Dashboard, Students, Courses, Teachers, Payments, Settings}
    ensures VisibleFor(Some("teacher")) == {Dashboard, Students, Courses, Settings}
    ensures VisibleFor(None) == {Dashboard, Settings}
  {
    assert "admin" != "root" && "teacher" != "root" && "teacher" != "admin";
    assert Admins !in VisibleFor(Some("admin"));
    assert Teachers !in VisibleFor(Some("teacher")) && Payments !in VisibleFor(Some("teacher"));
  }

  /** Any role other than the three staff roles sees only dashboard and
      settings. */
  lemma OtherRoles(role: string)
    requires role != "root" && role != "admin" && role != "teacher"
    ensures VisibleFor(Some(role)) == {Dashboard, Settings}
  {
    assert forall e :: e in VisibleFor(Some(role)) ==> e == Dashboard || e == Settings;
  }

  /** Each staff role sees everything the next one down sees. */
  lemma Nested()
    ensures VisibleFor(Some("teacher")) <= VisibleFor(Some("admin")) <= VisibleFor(Some("root"))
  {
    Table();
  }
}
