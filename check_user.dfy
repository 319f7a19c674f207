/** `checkUser` of src/utils/checkUser.jsx: resolves the acting role from
    `localStorage` and the hostname, and either returns it or tests it
    against a list of allowed roles. It is a display rule for navigation,
    not an access control: the server authorizes every operation itself. */
module CheckUser {
  import opened Options
  import opened Browser

  /** `getRoleFromSubdomain`: the leftmost label of a hostname with three or
      more labels, otherwise `VITE_SUBDOMAIN`, which may be undefined. */
  function RoleFromSubdomain(host: string, env: Env): (role: Option<string>)
    ensures |Labels(host)| >= 3 ==> role == Some(Labels(host)[0])
    ensures |Labels(host)| < 3 ==> role == env.viteSubdomain
  {
    match SubdomainLabel(host)
    case Some(first) => Some(first)
    case None => env.viteSubdomain
  }

  /** `localStorage.getItem("userRole") || getRoleFromSubdomain()`, with an
      empty result (`""`, `null` or `undefined`) read as no role. */
  function ResolveRole(storage: map<string, string>, host: string, env: Env): (role: Option<string>)
    ensures role.Some? ==> role.value != ""
    ensures RoleKey in storage && storage[RoleKey] != "" ==> role == Some(storage[RoleKey])
  {
    var stored := GetItem(storage, RoleKey);
    if stored.Some? && stored.value != "" then stored
    else
      var derived := RoleFromSubdomain(host, env);
      if derived.Some? && derived.value != "" then derived else None
  }

  /** What `checkUser` returns: a role (or `null`) when `returnRole` is set,
      a permission otherwise. */
  datatype Answer = Role(role: Option<string>) | Permission(allowed: bool)

  function Check(allowedRoles: seq<string>, returnRole: bool,
                 storage: map<string, string>, host: string, env: Env): (a: Answer)
    ensures returnRole <==> a.Role?
    ensures a.Role? ==> a.role == ResolveRole(storage, host, env)
    ensures a.Permission? ==>
              (a.allowed <==> ResolveRole(storage, host, env).Some? &&
                              ResolveRole(storage, host, env).value in allowedRoles)
  {
    var userRole := ResolveRole(storage, host, env);
    if returnRole then Role(userRole)
    else if userRole.None? then Permission(false)
    else Permission(userRole.value in allowedRoles)
  }

  /** `checkUser(allowedRoles)`, the permission mode. */
  function Allowed(allowedRoles: seq<string>, storage: map<string, string>, host: string, env: Env): bool {
    Check(allowedRoles, false, storage, host, env).allowed
  }

  /** A non-empty stored role decides, whatever the hostname and the
      environment say. */
  lemma StoredRoleWins(storage: map<string, string>, host: string, host': string, env: Env, env': Env)
    requires RoleKey in storage && storage[RoleKey] != ""
    ensures ResolveRole(storage, host, env) == ResolveRole(storage, host', env') == Some(storage[RoleKey])
  {
  }

  /** Without a stored role, a hostname with three or more labels gives its
      leftmost label, and any other hostname gives `VITE_SUBDOMAIN`, with no
      fallback of its own. */
  lemma RoleWithoutStorage(storage: map<string, string>, host: string, env: Env)
    requires RoleKey !in storage || storage[RoleKey] == ""
    ensures |Labels(host)| >= 3 ==>
              ResolveRole(storage, host, env) == if Labels(host)[0] == "" then None else Some(Labels(host)[0])
    ensures |Labels(host)| < 3 ==>
              ResolveRole(storage, host, env) == if env.viteSubdomain == Some("") then None else env.viteSubdomain
  {
  }

  /** With no role anywhere, every list is refused. */
  lemma NoRoleNoAccess(allowedRoles: seq<string>, storage: map<string, string>, host: string, env: Env)
    requires ResolveRole(storage, host, env).None?
    ensures !Allowed(allowedRoles, storage, host, env)
  {
  }

  /** The empty list admits nobody, and a longer list never takes a
      permission away. */
  lemma AllowedMonotone(allowedRoles: seq<string>, more: seq<string>,
                        storage: map<string, string>, host: string, env: Env)
    ensures !Allowed([], storage, host, env)
    ensures Allowed(allowedRoles, storage, host, env) ==> Allowed(allowedRoles + more, storage, host, env)
    ensures Allowed(allowedRoles, storage, host, env) ==> Allowed(more + allowedRoles, storage, host, env)
  {
  }

  /** With a role stored, the examples of the permission rule: a teacher is
      refused by ["root", "admin"] and admitted by ["root", "teacher"]. */
  lemma TeacherExamples(host: string, env: Env)
    ensures !Allowed(["root", "admin"], map[RoleKey := "teacher"], host, env)
    ensures Allowed(["root", "teacher"], map[RoleKey := "teacher"], host, env)
  {
    var s := map[RoleKey := "teacher"];
    assert ResolveRole(s, host, env) == Some("teacher");
    assert "teacher" != "root" && "teacher" != "admin";
  }
}
