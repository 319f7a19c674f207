/** Logging out, from src/pages/Settings/index.jsx: the token and the cached
    role are removed together and the user is sent to the login page. */
module Settings {
  import opened Options
  import opened Browser
  import opened RequireAuth

  /** The storage after a logout. */
  function ClearSession(storage: map<string, string>): (r: map<string, string>)
    ensures TokenKey !in r && RoleKey !in r
    ensures forall k :: k in r <==> k in storage && k != TokenKey && k != RoleKey
    ensures forall k :: k in r ==> r[k] == storage[k]
  {
    storage - {TokenKey, RoleKey}
  }

  /** `handleLogout`; the page reload that follows starts every component
      afresh and is not modelled further. */
  method HandleLogout(w: Window)
    modifies w
    ensures w.storage == ClearSession(old(w.storage))
    ensures w.location == LoginPath
  {
    w.RemoveItem(TokenKey);
    w.RemoveItem(RoleKey);
    w.Navigate(LoginPath);
  }

  /** Logging out twice leaves the same storage as logging out once. */
  lemma ClearSessionIdempotent(storage: map<string, string>)
    ensures ClearSession(ClearSession(storage)) == ClearSession(storage)
  {
  }

  /** A logout removes exactly what the guard removes on a failed check. */
  lemma LogoutMatchesGuardFailure(storage: map<string, string>)
    requires HasValidToken(GetItem(storage, TokenKey))
    ensures Gate(storage, MeQuery(false, None, None)).storage == ClearSession(storage)
  {
    var s := Gate(storage, MeQuery(false, None, None)).storage;
    assert s.Keys == ClearSession(storage).Keys;
  }

  /** After a logout no later evaluation of the guard grants access, whatever
      the identity query answers: it renders nothing, redirects, and does not
      restore the token. */
  lemma NoResurrectionAfterLogout(storage: map<string, string>, q: MeQuery)
    ensures var step := Gate(ClearSession(storage), q);
            step.render == Nothing && step.redirect && TokenKey !in step.storage
  {
    NoValidToken(ClearSession(storage), q);
  }
}
