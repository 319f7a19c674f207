/** `getSubdomainRole` of src/utils/getSubdomainRole.js: the role a hostname
    stands for, with the build-time environment as fallback. */
module SubdomainRole {
  import opened Options
  import opened Browser
  import opened Text

  function GetSubdomainRole(host: string, env: Env): (role: string)
    ensures host == "localhost" ==> role == OrElse(env.subDomain, "admin")
    ensures host != "localhost" && |Labels(host)| >= 3 ==> role == Labels(host)[0]
    ensures host != "localhost" && |Labels(host)| < 3 ==> role == OrElse(env.viteSubdomain, "root")
  {
    if host == "localhost" then OrElse(env.subDomain, "admin")
    else
      match SubdomainLabel(host)
      case Some(first) => first
      case None => OrElse(env.viteSubdomain, "root")
  }

  /** The role is never empty, except when it is taken from a hostname whose
      leftmost label is itself empty (`.elli.uz`). */
  lemma RoleNeverEmpty(host: string, env: Env)
    ensures GetSubdomainRole(host, env) == "" <==>
              host != "localhost" && |Labels(host)| >= 3 && Labels(host)[0] == ""
  {
  }

  /** "localhost" is tested before the hostname is split: it has a single
      label, yet it takes `SUB_DOMAIN` rather than `VITE_SUBDOMAIN`. */
  lemma LocalhostBeforeSplit(env: Env)
    ensures |Labels("localhost")| == 1
    ensures GetSubdomainRole("localhost", env) == OrElse(env.subDomain, "admin")
  {
    SubdomainLabelShape("localhost");
    assert Count("localhost", '.') == 0;
  }
}
