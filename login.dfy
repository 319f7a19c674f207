/** The login page of src/pages/Login/index.jsx: the user type derived from
    the hostname, and `handleSubmit`, which checks the inputs, sends the login
    mutation, stores the bearer token or reports why it could not. */
module Login {
  import opened Options
  import opened Text
  import opened Browser
  import SubdomainRole
  import RequireAuth

  const FillAllFields := "Please fill in all fields"
  const LoginFailed := "Login failed"
  const ServerErrorMessage := "Backend server error (500). Please contact the administrator."
  const NetworkErrorMessage := "Network error. Please check your connection."
  const UnexpectedErrorMessage := "An unexpected error occurred. Please try again."

  /** `getUserTypeFromSubdomain`: the leftmost label of a hostname with at
      least three labels, otherwise `VITE_SUBDOMAIN`, or "root". */
  function UserTypeFromSubdomain(host: string, env: Env): (userType: string)
    ensures |Labels(host)| >= 3 ==> userType == Labels(host)[0]
    ensures |Labels(host)| < 3 ==> userType == OrElse(env.viteSubdomain, "root")
  {
    match SubdomainLabel(host)
    case Some(first) => first
    case None => OrElse(env.viteSubdomain, "root")
  }

  /** The login page and `getSubdomainRole` agree on every hostname but
      "localhost", where the login page sends `VITE_SUBDOMAIN` or "root" and
      `getSubdomainRole` gives `SUB_DOMAIN` or "admin". */
  lemma UserTypeAgreesWithSubdomainRole(host: string, env: Env)
    ensures host != "localhost" ==> UserTypeFromSubdomain(host, env) == SubdomainRole.GetSubdomainRole(host, env)
    ensures UserTypeFromSubdomain("localhost", env) == OrElse(env.viteSubdomain, "root")
    ensures SubdomainRole.GetSubdomainRole("localhost", env) == OrElse(env.subDomain, "admin")
  {
    SubdomainRole.LocalhostBeforeSplit(env);
  }

  /** The variables of the login mutation. */
  datatype LoginVariables = LoginVariables(username: string, password: string, userType: string)

  /** `result.data?.login`; an absent token or message is "". */
  datatype LoginPayload = LoginPayload(success: bool, token: string, message: string)

  /** What `await loginMutation(...)` does: it yields a result, or throws an
      error carrying an optional network error (with an optional HTTP
      status) and the messages of its GraphQL errors. */
  datatype LoginOutcome =
    | Answered(login: Option<LoginPayload>)
    | Threw(networkError: Option<Option<int>>, graphQLErrors: seq<string>)

  /** The message shown for a thrown error, first match wins. */
  function ClassifyError(networkError: Option<Option<int>>, graphQLErrors: seq<string>): (message: string)
    ensures networkError == Some(Some(500)) ==> message == ServerErrorMessage
    ensures networkError.Some? && networkError != Some(Some(500)) ==> message == NetworkErrorMessage
    ensures networkError.None? && |graphQLErrors| > 0 ==> message == graphQLErrors[0]
    ensures networkError.None? && graphQLErrors == [] ==> message == UnexpectedErrorMessage
  {
    if networkError == Some(Some(500)) then ServerErrorMessage
    else if networkError.Some? then NetworkErrorMessage
    else if |graphQLErrors| > 0 then graphQLErrors[0]
    else UnexpectedErrorMessage
  }

  /** Everything one submission decides. */
  datatype Submission = Submission(
    request: Option<LoginVariables>,  // the mutation's variables, if it is sent
    logErr: bool,
    errorMessage: string,
    username: string,                 // the input fields afterwards
    password: string,
    storedToken: Option<string>,      // the value written under the token key
    goHome: bool)                     // whether it navigates to "/"

  /** A submission as a function of the inputs, the hostname, the
      environment and the server's answer (consulted only when a request is
      sent). */
  function Submit(username: string, password: string, host: string, env: Env, outcome: LoginOutcome): Submission {
    if Trim(username) == "" || Trim(password) == "" then
      Submission(None, true, FillAllFields, username, password, None, false)
    else
      var request := LoginVariables(Trim(username), Trim(password), UserTypeFromSubdomain(host, env));
      Respond(request, username, password, outcome)
  }

  /** What the page does with the mutation's outcome once `request` has
      been sent. */
  function Respond(request: LoginVariables, username: string, password: string, outcome: LoginOutcome): Submission {
    match outcome
    case Answered(login) =>
      if login.Some? && login.value.success && login.value.token != "" then
        Submission(Some(request), false, "", username, password, Some(RequireAuth.BearerPrefix + login.value.token), true)
      else
        var message := if login.Some? then Or(login.value.message, LoginFailed) else LoginFailed;
        Submission(Some(request), true, message, "", "", None, false)
    case Threw(networkError, graphQLErrors) =>
      Submission(Some(request), true, ClassifyError(networkError, graphQLErrors), username, password, None, false)
  }

  /** The page's state: the two controlled inputs and the error banner. */
  class LoginPage {
    var username: string
    var password: string
    var logErr: bool
    var errorMessage: string

    constructor ()
      ensures username == "" && password == "" && !logErr && errorMessage == ""
    {
      username := "";
      password := "";
      logErr := false;
      errorMessage := "";
    }

    /** `handleSubmit`; `outcome` is what the mutation yields or throws. */
    method HandleSubmit(w: Window, env: Env, outcome: LoginOutcome) returns (request: Option<LoginVariables>)
      modifies this, w
      ensures request == Submit(old(username), old(password), w.hostname, env, outcome).request
      ensures logErr == Submit(old(username), old(password), w.hostname, env, outcome).logErr
      ensures errorMessage == Submit(old(username), old(password), w.hostname, env, outcome).errorMessage
      ensures username == Submit(old(username), old(password), w.hostname, env, outcome).username
      ensures password == Submit(old(username), old(password), w.hostname, env, outcome).password
      ensures w.storage == match Submit(old(username), old(password), w.hostname, env, outcome).storedToken
                           case Some(token) => old(w.storage)[TokenKey := token]
                           case None => old(w.storage)
      ensures w.location == if Submit(old(username), old(password), w.hostname, env, outcome).goHome then HomePath else old(w.location)
    {
      // A new submission starts with the banner down.
      logErr := false;
      errorMessage := "";

      if Trim(username) == "" || Trim(password) == "" {
        errorMessage := FillAllFields;
        logErr := true;
        request := None;
        return;
      }

      // The second emptiness guard ("Username and password cannot be empty")
      // tests the same condition in other words and never fires.
      assert !(|Trim(username)| == 0 || |Trim(password)| == 0);

      var userType := UserTypeFromSubdomain(w.hostname, env);
      var variables := LoginVariables(Trim(username), Trim(password), userType);
      HandleOutcome(w, variables, outcome);
      request := Some(variables);
    }

    /** The part of `handleSubmit` after `await loginMutation(...)`. */
    method HandleOutcome(w: Window, request: LoginVariables, outcome: LoginOutcome)
      requires !logErr && errorMessage == ""
      modifies this, w
      ensures logErr == Respond(request, old(username), old(password), outcome).logErr
      ensures errorMessage == Respond(request, old(username), old(password), outcome).errorMessage
      ensures username == Respond(request, old(username), old(password), outcome).username
      ensures password == Respond(request, old(username), old(password), outcome).password
      ensures w.storage == match Respond(request, old(username), old(password), outcome).storedToken
                           case Some(token) => old(w.storage)[TokenKey := token]
                           case None => old(w.storage)
      ensures w.location == if Respond(request, old(username), old(password), outcome).goHome then HomePath else old(w.location)
    {
      match outcome {
        case Answered(loginData) =>
          if loginData.Some? && loginData.value.success && loginData.value.token != "" {
            w.SetItem(TokenKey, RequireAuth.BearerPrefix + loginData.value.token);
            w.Navigate(HomePath);
          } else {
            errorMessage := if loginData.Some? then Or(loginData.value.message, LoginFailed) else LoginFailed;
            logErr := true;
            username := "";
            password := "";
          }
        case Threw(networkError, graphQLErrors) =>
          errorMessage := ClassifyError(networkError, graphQLErrors);
          logErr := true;
      }
    }
  }

  // ---------------------------------------------------------------- properties

  /** A blank (or whitespace-only) username or password shows "Please fill
      in all fields" and sends nothing. */
  lemma BlankInputSendsNothing(username: string, password: string, host: string, env: Env, outcome: LoginOutcome)
    requires Trim(username) == "" || Trim(password) == ""
    ensures var s := Submit(username, password, host, env, outcome);
            s.request.None? && s.logErr && s.errorMessage == FillAllFields &&
            s.storedToken.None? && !s.goHome
  {
  }

  /** A request carries the trimmed username, the trimmed password and the
      user type of the hostname. */
  lemma RequestIsTrimmed(username: string, password: string, host: string, env: Env, outcome: LoginOutcome)
    requires Trim(username) != "" && Trim(password) != ""
    ensures Submit(username, password, host, env, outcome).request ==
              Some(LoginVariables(Trim(username), Trim(password), UserTypeFromSubdomain(host, env)))
  {
  }

  /** A token is stored, and the page goes home, exactly on an answer with
      `success` and a non-empty token; the stored value is "Bearer " and the
      token, which the route guard accepts, and the old error is gone. */
  lemma OnlySuccessStoresToken(username: string, password: string, host: string, env: Env, outcome: LoginOutcome)
    ensures var s := Submit(username, password, host, env, outcome);
            (s.storedToken.Some? <==> s.goHome) &&
            (s.goHome <==> Trim(username) != "" && Trim(password) != "" && outcome.Answered? &&
                           outcome.login.Some? && outcome.login.value.success && outcome.login.value.token != "")
    ensures var s := Submit(username, password, host, env, outcome);
            s.storedToken.Some? ==>
              && s.storedToken.value == RequireAuth.BearerPrefix + outcome.login.value.token
              && RequireAuth.HasValidToken(s.storedToken)
              && !s.logErr && s.errorMessage == ""
  {
    var s := Submit(username, password, host, env, outcome);
    if s.storedToken.Some? {
      assert RequireAuth.BearerPrefix <= RequireAuth.BearerPrefix + outcome.login.value.token;
    }
  }

  /** An answer without success shows the server's message, or "Login
      failed", and empties both inputs. */
  lemma RefusedAnswerClearsInputs(username: string, password: string, host: string, env: Env, login: Option<LoginPayload>)
    requires Trim(username) != "" && Trim(password) != ""
    requires !(login.Some? && login.value.success && login.value.token != "")
    ensures var s := Submit(username, password, host, env, Answered(login));
            && s.logErr && s.username == "" && s.password == ""
            && s.errorMessage == (if login.Some? && login.value.message != "" then login.value.message else LoginFailed)
  {
  }

  /** A thrown error keeps the inputs and raises the banner with its
      classified message. */
  lemma ThrownErrorKeepsInputs(username: string, password: string, host: string, env: Env,
                               networkError: Option<Option<int>>, graphQLErrors: seq<string>)
    requires Trim(username) != "" && Trim(password) != ""
    ensures var s := Submit(username, password, host, env, Threw(networkError, graphQLErrors));
            && s.logErr && s.username == username && s.password == password && s.storedToken.None?
            && s.errorMessage == ClassifyError(networkError, graphQLErrors)
  {
  }
}
