/** The route guard of src/components/auth/RequireAuth.jsx. On every
    protected route it reads the stored token, asks the server who the token
    belongs to (the `me` query), keeps the cached role in step with the
    answer, and on failure clears the session and sends the user to the
    login page. One mount is modelled as a single transition from the stored
    token and the query's state to a render decision, new storage and a
    redirect. */
module RequireAuth {
  import opened Options
  import opened Browser

  const BearerPrefix := "Bearer "

  /** The identity record the `me` query returns; an absent field is "". */
  datatype Identity = Identity(id: string, username: string, fullname: string, role: string)

  /** An Apollo error either carries a `networkError` (the server could not
      be reached) or does not (the server answered with GraphQL errors). */
  datatype QueryError = NetworkError | ServerError

  /** The `{ data, loading, error }` triple of `useQuery`; `me` is
      `data?.me`. */
  datatype MeQuery = MeQuery(loading: bool, me: Option<Identity>, error: Option<QueryError>)

  /** What a skipped query reports. */
  const Skipped := MeQuery(false, None, None)

  /** The identity substituted when the server cannot be reached. */
  const MockIdentity := Identity("mock-user-id", "admin", "Admin User", "root")

  datatype Render = Nothing | LoadingIndicator | ProtectedOutlet

  /** `token && token.startsWith("Bearer ")`. */
  predicate HasValidToken(token: Option<string>) {
    token.Some? && BearerPrefix <= token.value
  }

  /** What the query reports to the component: the real outcome when a
      request is made, the skipped state otherwise. */
  function Observed(valid: bool, q: MeQuery): (o: MeQuery)
    ensures !valid ==> o == Skipped
    ensures valid ==> o == q
  {
    if valid then q else Skipped
  }

  /** `mockData`: the mock identity after a network error, the query's
      identity otherwise. */
  function MockData(valid: bool, q: MeQuery): (me: Option<Identity>)
    ensures valid && q.error == Some(NetworkError) ==> me == Some(MockIdentity)
    ensures !(valid && q.error == Some(NetworkError)) ==> me == q.me
  {
    if valid && q.error == Some(NetworkError) then Some(MockIdentity) else q.me
  }

  /** `error && !error.networkError || !mockData?.me`. */
  predicate AuthFailed(q: MeQuery, me: Option<Identity>) {
    q.error == Some(ServerError) || me.None?
  }

  /** The outcome of one evaluation of the guard. */
  datatype Step = Step(render: Render, storage: map<string, string>, redirect: bool)

  /** The guard as a function of the storage and the query outcome: the
      three effects in their declaration order, then the render. */
  function Gate(storage: map<string, string>, q: MeQuery): Step {
    var valid := HasValidToken(GetItem(storage, TokenKey));
    var o := Observed(valid, q);
    var me := MockData(valid, o);
    var saved := if me.Some? && me.value.role != "" then storage[RoleKey := me.value.role] else storage;
    var failed := !o.loading && valid && AuthFailed(o, me);
    var cleared := if failed then saved - {TokenKey} - {RoleKey} else saved;
    var render := if !valid then Nothing else if o.loading then LoadingIndicator else ProtectedOutlet;
    Step(render, cleared, !valid || failed)
  }

  /** One mount of the guard against the browser state. */
  method Guard(w: Window, q: MeQuery) returns (render: Render)
    modifies w
    ensures render == Gate(old(w.storage), q).render
    ensures w.storage == Gate(old(w.storage), q).storage
    ensures w.location == if Gate(old(w.storage), q).redirect then LoginPath else old(w.location)
  {
    var token := GetItem(w.storage, TokenKey);
    var hasValidToken := HasValidToken(token);

    // Without a bearer token the guard leaves for the login page.
    if !hasValidToken {
      w.Navigate(LoginPath);
    }

    var result := Observed(hasValidToken, q);
    var mockData := MockData(hasValidToken, result);

    // A known identity with a role refreshes the cached role.
    if mockData.Some? && mockData.value.role != "" {
      w.SetItem(RoleKey, mockData.value.role);
    }

    // Once the query has settled, a failed identity check ends the session.
    if !result.loading && hasValidToken {
      var authFailed := AuthFailed(result, mockData);
      if authFailed {
        w.RemoveItem(TokenKey);
        w.RemoveItem(RoleKey);
        w.Navigate(LoginPath);
      }
    }

    if !hasValidToken {
      render := Nothing;
    } else if result.loading {
      render := LoadingIndicator;
    } else {
      render := ProtectedOutlet;
    }
  }

  // ---------------------------------------------------------------- properties

  /** Without a token that starts with "Bearer ", no query is made, the
      guard renders nothing and redirects, and storage is left as it was: a
      malformed token stays stored. */
  lemma NoValidToken(storage: map<string, string>, q: MeQuery)
    requires !HasValidToken(GetItem(storage, TokenKey))
    ensures Gate(storage, q) == Step(Nothing, storage, true)
  {
  }

  /** A valid token with the query in flight shows the loading indicator. */
  lemma LoadingShowsIndicator(storage: map<string, string>, q: MeQuery)
    requires HasValidToken(GetItem(storage, TokenKey)) && q.loading
    ensures Gate(storage, q).render == LoadingIndicator
    ensures !Gate(storage, q).redirect
    ensures TokenKey in Gate(storage, q).storage
  {
  }

  /** Once loading has finished, a valid token always renders the
      protected routes; a failure shows only as the redirect beside it. */
  lemma LoadedRendersOutlet(storage: map<string, string>, q: MeQuery)
    requires HasValidToken(GetItem(storage, TokenKey)) && !q.loading
    ensures Gate(storage, q).render == ProtectedOutlet
  {
  }

  /** A network error is not an authentication failure: the mock identity
      is used, its role "root" is cached, and the token is kept. */
  lemma NetworkErrorGrantsMock(storage: map<string, string>, q: MeQuery)
    requires HasValidToken(GetItem(storage, TokenKey)) && q.error == Some(NetworkError)
    ensures Gate(storage, q).storage == storage[RoleKey := "root"]
    ensures !Gate(storage, q).redirect
    ensures Gate(storage, q).render == if q.loading then LoadingIndicator else ProtectedOutlet
  {
    assert TokenKey != RoleKey;
  }

  /** After loading, the session fails exactly on a server error or a
      missing identity; a failure removes the token and the role and
      redirects, and otherwise nothing is removed. */
  lemma FailureClearsSession(storage: map<string, string>, q: MeQuery)
    requires HasValidToken(GetItem(storage, TokenKey)) && !q.loading
    ensures Gate(storage, q).redirect <==> q.error == Some(ServerError) || (q.error != Some(NetworkError) && q.me.None?)
    ensures Gate(storage, q).redirect ==>
              Gate(storage, q).storage == storage - {TokenKey, RoleKey}
    ensures !Gate(storage, q).redirect ==>
              TokenKey in Gate(storage, q).storage && Gate(storage, q).storage[TokenKey] == storage[TokenKey]
  {
    var s := Gate(storage, q).storage;
    if Gate(storage, q).redirect {
      assert s.Keys == storage.Keys - {TokenKey, RoleKey};
    }
  }

  /** Whenever the guard keeps the session and an identity is known, the
      cached role is that identity's role (when it has one). */
  lemma RoleFollowsIdentity(storage: map<string, string>, q: MeQuery)
    requires HasValidToken(GetItem(storage, TokenKey))
    requires !Gate(storage, q).redirect
    ensures var me := MockData(true, q);
            me.Some? && me.value.role != "" ==>
              RoleKey in Gate(storage, q).storage && Gate(storage, q).storage[RoleKey] == me.value.role
  {
  }

  /** An identity that arrives together with GraphQL errors still fails the
      session: its role is written and then removed with the token. */
  lemma PartialDataStillFails(storage: map<string, string>, who: Identity)
    requires HasValidToken(GetItem(storage, TokenKey))
    ensures Gate(storage, MeQuery(false, Some(who), Some(ServerError))) == Step(ProtectedOutlet, storage - {TokenKey, RoleKey}, true)
  {
    var s := Gate(storage, MeQuery(false, Some(who), Some(ServerError))).storage;
    assert s.Keys == storage.Keys - {TokenKey, RoleKey};
  }

  /** A successful check caches the confirmed role, e.g. "admin". */
  lemma AuthenticatedCachesRole(storage: map<string, string>, who: Identity)
    requires HasValidToken(GetItem(storage, TokenKey)) && who.role != ""
    ensures Gate(storage, MeQuery(false, Some(who), None)) ==
              Step(ProtectedOutlet, storage[RoleKey := who.role], false)
  {
  }
}
