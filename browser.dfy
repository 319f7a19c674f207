/** The browser facilities the console reads and writes: `localStorage` (a
    map from key to string), `window.location.hostname`, the router's current
    path, and the build-time environment `import.meta.env`. */
module Browser {
  import opened Options
  import opened Text

  /** The `localStorage` key holding the bearer token (spelled as in the
      console). */
  const TokenKey := "authentification"
  /** The `localStorage` key caching the acting role. */
  const RoleKey := "userRole"
  const LoginPath := "/login"
  const HomePath := "/"

  /** `import.meta.env.SUB_DOMAIN` and `import.meta.env.VITE_SUBDOMAIN`;
      `None` when the variable is not defined at build time. */
  datatype Env = Env(subDomain: Option<string>, viteSubdomain: Option<string>)

  /** `localStorage.getItem(key)`: `null` for a missing key. */
  function GetItem(storage: map<string, string>, key: string): (v: Option<string>)
    ensures v.Some? <==> key in storage
    ensures v.Some? ==> v.value == storage[key]
  {
    if key in storage then Some(storage[key]) else None
  }

  /** `hostname.split(".")`. */
  function Labels(host: string): (parts: seq<string>)
    ensures |parts| >= 1
  {
    Split(host, '.')
  }

  /** The hostname's leftmost label when it has at least three labels, the
      deployment convention of one subdomain per role (`root.elli.uz`). */
  function SubdomainLabel(host: string): (r: Option<string>)
    ensures r.Some? <==> |Labels(host)| >= 3
    ensures r.Some? ==> r.value == Labels(host)[0]
  {
    if |Labels(host)| >= 3 then Some(Labels(host)[0]) else None
  }

  /** A hostname has three or more labels exactly when it has two or more
      dots, and its leftmost label is the text before the first dot. */
  lemma SubdomainLabelShape(host: string)
    ensures SubdomainLabel(host).Some? <==> Count(host, '.') >= 2
    ensures SubdomainLabel(host).Some? ==>
              var l := SubdomainLabel(host).value;
              l <= host && |l| < |host| && host[|l|] == '.' && '.' !in l
  {
    SplitShape(host, '.');
    if SubdomainLabel(host).Some? {
      NoDotNoCount(host);
    }
  }

  lemma {:induction false} NoDotNoCount(s: string)
    ensures '.' !in s ==> Count(s, '.') == 0
  {
    if s != [] {
      NoDotNoCount(s[1..]);
      assert '.' !in s ==> '.' !in s[1..];
    }
  }

  /** The part of the browser the console changes: `localStorage` and the
      router's current path. The hostname does not change while the page
      is loaded. */
  class Window {
    const hostname: string
    var storage: map<string, string>
    var location: string

    constructor (hostname: string, storage: map<string, string>, location: string)
      ensures this.hostname == hostname && this.storage == storage && this.location == location
    {
      this.hostname := hostname;
      this.storage := storage;
      this.location := location;
    }

    /** `localStorage.setItem(key, value)`. */
    method SetItem(key: string, value: string)
      modifies this`storage
      ensures storage == old(storage)[key := value]
    {
      storage := storage[key := value];
    }

    /** `localStorage.removeItem(key)`; removing a missing key is harmless. */
    method RemoveItem(key: string)
      modifies this`storage
      ensures storage == old(storage) - {key}
    {
      storage := storage - {key};
    }

    /** `navigate(path)`. */
    method Navigate(path: string)
      modifies this`location
      ensures location == path
    {
      location := path;
    }
  }
}
