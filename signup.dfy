/** The sign-up form's submit handler: an ordered validation (passwords match,
    address shape, password length) whose first failure is reported without any
    request, then a register request, an automatic login when registration
    returned 201 with a token, and a redirect to the dashboard when the login
    says it authenticated.

    The handler is modelled as the sequence of actions it performs: the React
    state updates of `error` and `isLoading`, the two POST requests, the two
    storage writes and the navigation. Replies of the backend are parameters.
    The page and the stand-alone component differ only in the API base their
    URLs start with. */
module SignUp {
  import opened Wrappers
  import opened EmailPattern

  const PasswordMismatch := "Passwords do not match"
  const InvalidEmail := "Please enter a valid email address"
  const PasswordTooShort := "Password must be at least 8 characters long"
  const RegistrationFailed := "Registration failed"
  const AutoLoginFailed := "Registration successful but unable to log in automatically"
  const SignUpFailed := "An error occurred during sign up"
  const MinPasswordLength := 8

  /** The stand-alone component posts to URLs relative to this base. */
  const ComponentApiBase := "/v1/"

  /** The response body fields the handler reads; None is an absent field. */
  datatype Body = Body(
    token: Option<string>,
    error: Option<string>,
    authenticated: Option<string>,
    user: Option<string>)

  /** How an axios POST settles: resolved with an HTTP status and a body, or
      rejected, carrying the server's response body when there was one. */
  datatype Reply = Resolved(status: int, data: Body) | Rejected(response: Option<Body>)

  /** What the handler does, in order. */
  datatype Action =
    | SetError(message: string)
    | SetLoading(loading: bool)
    | PostSignup(url: string, email: string, username: string, password: string, role: string)
    | PostLogin(url: string, email: string, password: string)
    | StoreItem(key: string, value: Option<string>)
    | Navigate(path: string)

  predicate IsRequest(a: Action)
  {
    a.PostSignup? || a.PostLogin?
  }

  /** JavaScript truthiness of an optional string field. */
  predicate Truthy(v: Option<string>)
  {
    v.Some? && v.value != ""
  }

  /** A truthy field, or the fallback message when it is absent or empty. */
  function OrElse(v: Option<string>, fallback: string): string
  {
    if Truthy(v) then v.value else fallback
  }

  /** The message set when a request rejects: the server's error, or the generic one. */
  function CaughtMessage(response: Option<Body>): string
  {
    OrElse(if response.Some? then response.value.error else None, SignUpFailed)
  }

  /** The message of the first failing check, in the order the handler runs them. */
  function FirstInvalid(email: string, password: string, confirmPassword: string): (problem: Option<string>)
    ensures problem == None <==>
      password == confirmPassword && EmailRegexTest(email) && |password| >= MinPasswordLength
    ensures problem == Some(PasswordMismatch) <==> password != confirmPassword
    ensures problem == Some(InvalidEmail) <==> password == confirmPassword && !EmailRegexTest(email)
    ensures problem == Some(PasswordTooShort) <==>
      password == confirmPassword && EmailRegexTest(email) && |password| < MinPasswordLength
  {
    if password != confirmPassword then Some(PasswordMismatch)
    else if !EmailRegexTest(email) then Some(InvalidEmail)
    else if |password| < MinPasswordLength then Some(PasswordTooShort)
    else None
  }

  /** Registration succeeded in the handler's sense: status 201 and a truthy token. */
  predicate Registered(register: Reply)
  {
    register.Resolved? && register.status == 201 && Truthy(register.data.token)
  }

  /** The login reply says `authenticated === "true"`. */
  predicate Authenticated(login: Reply)
  {
    login.Resolved? && login.data.authenticated == Some("true")
  }

  /** What follows the settled login request. */
  function AfterLogin(login: Reply): seq<Action>
  {
    match login
    case Rejected(response) => [SetError(CaughtMessage(response))]
    case Resolved(_, data) =>
      if data.authenticated == Some("true") then
        [StoreItem("token", data.token), StoreItem("user", data.user), Navigate("/dashboard")]
      else [SetError(AutoLoginFailed)]
  }

  /** What follows the settled register request. */
  function AfterRegister(apiBase: string, email: string, password: string, register: Reply, login: Reply): seq<Action>
  {
    match register
    case Rejected(response) => [SetError(CaughtMessage(response))]
    case Resolved(status, data) =>
      if status == 201 && Truthy(data.token) then
        [PostLogin(apiBase + "auth/user/login", email, password)] + AfterLogin(login)
      else [SetError(OrElse(data.error, RegistrationFailed))]
  }

  /** The try/catch/finally part: loading on, the register request and what
      follows it, loading off. */
  function RequestActions(apiBase: string, email: string, password: string, register: Reply, login: Reply): seq<Action>
  {
    [SetLoading(true), PostSignup(apiBase + "auth/user/signup", email, email, password, "user")]
    + AfterRegister(apiBase, email, password, register, login)
    + [SetLoading(false)]
  }

  /** Everything one submit does. */
  function SignUpTrace(apiBase: string, email: string, password: string, confirmPassword: string,
                       register: Reply, login: Reply): seq<Action>
  {
    [SetError("")] +
    match FirstInvalid(email, password, confirmPassword)
    case Some(problem) => [SetError(problem)]
    case None => RequestActions(apiBase, email, password, register, login)
  }

  /** The value of `error` after the actions: the last message set, if any. */
  function ErrorAfter(actions: seq<Action>, before: string): string
    decreases |actions|
  {
    if actions == [] then before
    else if actions[|actions| - 1].SetError? then actions[|actions| - 1].message
    else ErrorAfter(actions[..|actions| - 1], before)
  }

  /** The value of `isLoading` after the actions. */
  function LoadingAfter(actions: seq<Action>, before: bool): bool
    decreases |actions|
  {
    if actions == [] then before
    else if actions[|actions| - 1].SetLoading? then actions[|actions| - 1].loading
    else LoadingAfter(actions[..|actions| - 1], before)
  }

  class Form {
    const apiBase: string
    var email: string
    var password: string
    var confirmPassword: string
    var error: string
    var isLoading: bool
    /** The requests, storage writes, navigations and state updates so far. */
    var actions: seq<Action>

    /** The page version, posting to `API_BASE + "auth/user/..."`. */
    constructor Page(apiBase: string)
      ensures this.apiBase == apiBase
      ensures email == "" && password == "" && confirmPassword == ""
      ensures error == "" && !isLoading && actions == []
    {
      this.apiBase := apiBase;
      email, password, confirmPassword := "", "", "";
      error, isLoading, actions := "", false, [];
    }

    /** The stand-alone component, posting to `/v1/auth/user/...`. */
    constructor Component()
      ensures apiBase == ComponentApiBase
      ensures email == "" && password == "" && confirmPassword == ""
      ensures error == "" && !isLoading && actions == []
    {
      apiBase := ComponentApiBase;
      email, password, confirmPassword := "", "", "";
      error, isLoading, actions := "", false, [];
    }

    /** Sets the error message shown under the form. */
    method Report(message: string)
      modifies this`error, this`actions
      ensures error == message && actions == old(actions) + [SetError(message)]
    {
      error := message;
      actions := actions + [SetError(message)];
    }

    /** handleSignUp: clear the error, run the checks in order (the first failing
        one reports its message and ends the submit), then send the requests. */
    method HandleSignUp(register: Reply, login: Reply)
      modifies this`error, this`isLoading, this`actions
      ensures actions == old(actions) + SignUpTrace(apiBase, email, password, confirmPassword, register, login)
      ensures error == ErrorAfter(SignUpTrace(apiBase, email, password, confirmPassword, register, login), old(error))
      ensures isLoading == LoadingAfter(SignUpTrace(apiBase, email, password, confirmPassword, register, login), old(isLoading))
    {
      ghost var trace := SignUpTrace(apiBase, email, password, confirmPassword, register, login);
      Report("");
      var problem := FirstInvalid(email, password, confirmPassword);
      if problem.Some? {
        assert trace == [SetError("")] + [SetError(problem.value)];
        NoLoadingUpdateKeeps(trace, old(isLoading));
        Report(problem.value);
        AppendRegroups(old(actions), [SetError("")], [SetError(problem.value)]);
        return;
      }
      ghost var requests := RequestActions(apiBase, email, password, register, login);
      assert trace == [SetError("")] + requests;
      ErrorAfterAppend([SetError("")], requests, old(error));
      LoadingAfterAppend([SetError("")], requests, old(isLoading));
      SendRequests(register, login);
      AppendRegroups(old(actions), [SetError("")], requests);
    }

    /** The try/catch/finally part: loading on, the register request and what
        follows it, loading off at the end whatever the outcome. */
    method SendRequests(register: Reply, login: Reply)
      modifies this`error, this`isLoading, this`actions
      ensures actions == old(actions) + RequestActions(apiBase, email, password, register, login)
      ensures error == ErrorAfter(RequestActions(apiBase, email, password, register, login), old(error))
      ensures isLoading == LoadingAfter(RequestActions(apiBase, email, password, register, login), old(isLoading))
      ensures !isLoading
    {
      var signup := PostSignup(apiBase + "auth/user/signup", email, email, password, "user");
      ghost var after := AfterRegister(apiBase, email, password, register, login);
      ghost var requests := RequestActions(apiBase, email, password, register, login);
      isLoading := true;
      actions := actions + [SetLoading(true)];
      actions := actions + [signup];
      FinishRegistration(register, login);
      isLoading := false;
      actions := actions + [SetLoading(false)];
      assert requests[..|requests| - 1] == [SetLoading(true), signup] + after;
      ErrorAfterAppend([SetLoading(true), signup], after, old(error));
      NoErrorUpdateKeeps([SetLoading(true), signup], old(error));
    }

    /** What the handler does once the register request settled: log in when
        registration answered 201 with a token, otherwise report why not. */
    method FinishRegistration(register: Reply, login: Reply)
      modifies this`error, this`actions
      ensures actions == old(actions) + AfterRegister(apiBase, email, password, register, login)
      ensures error == ErrorAfter(AfterRegister(apiBase, email, password, register, login), old(error))
    {
      match register {
        case Rejected(response) =>
          Report(CaughtMessage(response));
        case Resolved(status, data) =>
          if status == 201 && Truthy(data.token) {
            var loginPost := PostLogin(apiBase + "auth/user/login", email, password);
            actions := actions + [loginPost];
            FinishLogin(login);
            ErrorAfterAppend([loginPost], AfterLogin(login), old(error));
          } else {
            Report(OrElse(data.error, RegistrationFailed));
          }
      }
    }

    /** What the handler does once the login request settled: store the token
        and user and open the dashboard when authenticated, otherwise report. */
    method FinishLogin(login: Reply)
      modifies this`error, this`actions
      ensures actions == old(actions) + AfterLogin(login)
      ensures error == ErrorAfter(AfterLogin(login), old(error))
    {
      match login {
        case Rejected(response) =>
          Report(CaughtMessage(response));
        case Resolved(_, data) =>
          if data.authenticated == Some("true") {
            actions := actions + [StoreItem("token", data.token)];
            actions := actions + [StoreItem("user", data.user)];
            actions := actions + [Navigate("/dashboard")];
            NoErrorUpdateKeeps(AfterLogin(login), old(error));
          } else {
            Report(AutoLoginFailed);
          }
      }
    }
  }

  // ----- reading the state off the actions -----

  /** The last message set decides `error`. */
  lemma {:induction false} LastSetErrorWins(actions: seq<Action>, i: nat, before: string)
    requires i < |actions| && actions[i].SetError?
    requires forall k | i < k < |actions| :: !actions[k].SetError?
    ensures ErrorAfter(actions, before) == actions[i].message
    decreases |actions|
  {
    if i < |actions| - 1 {
      var prefix := actions[..|actions| - 1];
      assert prefix[i] == actions[i];
      LastSetErrorWins(prefix, i, before);
    }
  }

  /** Appending two stretches one after the other is appending them joined. */
  lemma AppendRegroups(log: seq<Action>, first: seq<Action>, second: seq<Action>)
    ensures log + first + second == log + (first + second)
  {
  }

  /** Without an error update `error` keeps its value. */
  lemma {:induction false} NoErrorUpdateKeeps(actions: seq<Action>, before: string)
    requires forall k | 0 <= k < |actions| :: !actions[k].SetError?
    ensures ErrorAfter(actions, before) == before
    decreases |actions|
  {
    if actions != [] {
      NoErrorUpdateKeeps(actions[..|actions| - 1], before);
    }
  }

  /** Without a loading update `isLoading` keeps its value. */
  lemma {:induction false} NoLoadingUpdateKeeps(actions: seq<Action>, before: bool)
    requires forall k | 0 <= k < |actions| :: !actions[k].SetLoading?
    ensures LoadingAfter(actions, before) == before
    decreases |actions|
  {
    if actions != [] {
      NoLoadingUpdateKeeps(actions[..|actions| - 1], before);
    }
  }

  /** Reading `error` off two stretches of actions: the second starts from the
      value the first leaves. */
  lemma {:induction false} ErrorAfterAppend(first: seq<Action>, second: seq<Action>, before: string)
    ensures ErrorAfter(first + second, before) == ErrorAfter(second, ErrorAfter(first, before))
    decreases |second|
  {
    if second == [] {
      assert first + second == first;
    } else {
      var n := |second|;
      assert (first + second)[..|first + second| - 1] == first + second[..n - 1];
      ErrorAfterAppend(first, second[..n - 1], before);
    }
  }

  /** The same for `isLoading`. */
  lemma {:induction false} LoadingAfterAppend(first: seq<Action>, second: seq<Action>, before: bool)
    ensures LoadingAfter(first + second, before) == LoadingAfter(second, LoadingAfter(first, before))
    decreases |second|
  {
    if second == [] {
      assert first + second == first;
    } else {
      var n := |second|;
      assert (first + second)[..|first + second| - 1] == first + second[..n - 1];
      LoadingAfterAppend(first, second[..n - 1], before);
    }
  }

  /** The error and loading flag a submit leaves, case by case. */
  lemma FinalState(apiBase: string, email: string, password: string, confirmPassword: string,
                   register: Reply, login: Reply, errorBefore: string, loadingBefore: bool)
    ensures var t := SignUpTrace(apiBase, email, password, confirmPassword, register, login);
      var problem := FirstInvalid(email, password, confirmPassword);
      && (problem.Some? ==>
            ErrorAfter(t, errorBefore) == problem.value && LoadingAfter(t, loadingBefore) == loadingBefore)
      && (problem.None? ==> !LoadingAfter(t, loadingBefore))
      && (problem.None? && register.Rejected? ==>
            ErrorAfter(t, errorBefore) == CaughtMessage(register.response))
      && (problem.None? && register.Resolved? && !Registered(register) ==>
            ErrorAfter(t, errorBefore) == OrElse(register.data.error, RegistrationFailed))
      && (problem.None? && Registered(register) && login.Rejected? ==>
            ErrorAfter(t, errorBefore) == CaughtMessage(login.response))
      && (problem.None? && Registered(register) && login.Resolved? && !Authenticated(login) ==>
            ErrorAfter(t, errorBefore) == AutoLoginFailed)
      && (problem.None? && Registered(register) && Authenticated(login) ==>
            ErrorAfter(t, errorBefore) == "")
  {
    var t := SignUpTrace(apiBase, email, password, confirmPassword, register, login);
    var problem := FirstInvalid(email, password, confirmPassword);
    if problem.Some? {
      assert t == [SetError(""), SetError(problem.value)];
      LastSetErrorWins(t, 1, errorBefore);
      NoLoadingUpdateKeeps(t, loadingBefore);
    } else {
      var after := AfterRegister(apiBase, email, password, register, login);
      var signup := PostSignup(apiBase + "auth/user/signup", email, email, password, "user");
      assert t == [SetError(""), SetLoading(true), signup] + after + [SetLoading(false)];
      var n := |t|;
      if Registered(register) && Authenticated(login) {
        assert forall k | 0 < k < n :: !t[k].SetError?;
        LastSetErrorWins(t, 0, errorBefore);
      } else {
        assert |after| >= 1 && after[|after| - 1].SetError?;
        assert t[n - 2] == after[|after| - 1];
        LastSetErrorWins(t, n - 2, errorBefore);
      }
    }
  }

  // ----- what a submit guarantees -----

  /** The whole trace of a submit, outcome by outcome. */
  lemma TraceByOutcome(apiBase: string, email: string, password: string, confirmPassword: string,
                       register: Reply, login: Reply)
    ensures var t := SignUpTrace(apiBase, email, password, confirmPassword, register, login);
      var problem := FirstInvalid(email, password, confirmPassword);
      var signup := PostSignup(apiBase + "auth/user/signup", email, email, password, "user");
      var loginPost := PostLogin(apiBase + "auth/user/login", email, password);
      && (problem.Some? ==> t == [SetError(""), SetError(problem.value)])
      && (problem.None? && register.Rejected? ==>
            t == [SetError(""), SetLoading(true), signup, SetError(CaughtMessage(register.response)), SetLoading(false)])
      && (problem.None? && register.Resolved? && !Registered(register) ==>
            t == [SetError(""), SetLoading(true), signup, SetError(OrElse(register.data.error, RegistrationFailed)),
                  SetLoading(false)])
      && (problem.None? && Registered(register) && login.Rejected? ==>
            t == [SetError(""), SetLoading(true), signup, loginPost, SetError(CaughtMessage(login.response)),
                  SetLoading(false)])
      && (problem.None? && Registered(register) && login.Resolved? && !Authenticated(login) ==>
            t == [SetError(""), SetLoading(true), signup, loginPost, SetError(AutoLoginFailed), SetLoading(false)])
      && (problem.None? && Registered(register) && Authenticated(login) ==>
            t == [SetError(""), SetLoading(true), signup, loginPost, StoreItem("token", login.data.token),
                  StoreItem("user", login.data.user), Navigate("/dashboard"), SetLoading(false)])
  {
    var t := SignUpTrace(apiBase, email, password, confirmPassword, register, login);
    if FirstInvalid(email, password, confirmPassword).None? {
      var signup := PostSignup(apiBase + "auth/user/signup", email, email, password, "user");
      var after := AfterRegister(apiBase, email, password, register, login);
      assert t == [SetError(""), SetLoading(true), signup] + after + [SetLoading(false)];
      if Registered(register) {
        assert after == [PostLogin(apiBase + "auth/user/login", email, password)] + AfterLogin(login);
      }
    }
  }

  /** Every submit starts by clearing the previous error. */
  lemma SubmitClearsErrorFirst(apiBase: string, email: string, password: string, confirmPassword: string,
                               register: Reply, login: Reply)
    ensures SignUpTrace(apiBase, email, password, confirmPassword, register, login)[0] == SetError("")
  {
  }

  /** A failed check sets its own message and returns: no request, no loading update. */
  lemma ValidationFailureSendsNothing(apiBase: string, email: string, password: string, confirmPassword: string,
                                     register: Reply, login: Reply)
    requires FirstInvalid(email, password, confirmPassword).Some?
    ensures var t := SignUpTrace(apiBase, email, password, confirmPassword, register, login);
      forall a | a in t :: !IsRequest(a) && !a.SetLoading? && !a.StoreItem? && !a.Navigate?
  {
  }

  /** On the request path `isLoading` is set before the register request and
      cleared as the very last action, whatever the outcome; every request lies
      between the two. */
  lemma LoadingBracketsRequests(apiBase: string, email: string, password: string, confirmPassword: string,
                                register: Reply, login: Reply)
    requires FirstInvalid(email, password, confirmPassword).None?
    ensures var t := SignUpTrace(apiBase, email, password, confirmPassword, register, login);
      && |t| >= 5
      && t[1] == SetLoading(true)
      && t[2] == PostSignup(apiBase + "auth/user/signup", email, email, password, "user")
      && t[|t| - 1] == SetLoading(false)
      && (forall k | 1 < k < |t| - 1 :: !t[k].SetLoading?)
      && (forall k | 0 <= k < |t| && IsRequest(t[k]) :: 1 < k < |t| - 1)
  {
    TraceByOutcome(apiBase, email, password, confirmPassword, register, login);
  }

  /** The login request is sent exactly when the checks passed and the register
      reply had status 201 and a truthy token. */
  lemma LoginOnlyAfterRegistration(apiBase: string, email: string, password: string, confirmPassword: string,
                                   register: Reply, login: Reply)
    ensures var t := SignUpTrace(apiBase, email, password, confirmPassword, register, login);
      && (PostLogin(apiBase + "auth/user/login", email, password) in t <==>
            FirstInvalid(email, password, confirmPassword).None? && Registered(register))
      && (forall a | a in t && a.PostLogin? :: a == PostLogin(apiBase + "auth/user/login", email, password))
  {
    TraceByOutcome(apiBase, email, password, confirmPassword, register, login);
  }

  /** Token and user are stored and the dashboard opened exactly when the
      login reply says authenticated; the form then ends without an error,
      and every other outcome ends with a non-empty message. */
  lemma RedirectOnlyWhenAuthenticated(apiBase: string, email: string, password: string, confirmPassword: string,
                                      register: Reply, login: Reply, errorBefore: string)
    ensures var t := SignUpTrace(apiBase, email, password, confirmPassword, register, login);
      var succeeded := FirstInvalid(email, password, confirmPassword).None? && Registered(register) && Authenticated(login);
      && (Navigate("/dashboard") in t <==> succeeded)
      && (succeeded ==> StoreItem("token", login.data.token) in t && StoreItem("user", login.data.user) in t)
      && (!succeeded ==> forall a | a in t :: !a.StoreItem? && !a.Navigate?)
      && (ErrorAfter(t, errorBefore) == "" <==> succeeded)
  {
    TraceByOutcome(apiBase, email, password, confirmPassword, register, login);
    FinalState(apiBase, email, password, confirmPassword, register, login, errorBefore, false);
    var problem := FirstInvalid(email, password, confirmPassword);
    if problem.Some? {
      assert problem.value != "";
    } else if register.Rejected? {
      assert CaughtMessage(register.response) != "";
    } else if !Registered(register) {
      assert OrElse(register.data.error, RegistrationFailed) != "";
    } else if login.Rejected? {
      assert CaughtMessage(login.response) != "";
    }
  }

  /** A password of exactly eight characters passes the length check. */
  lemma EightCharactersSuffice(email: string, password: string)
    requires |password| == MinPasswordLength && EmailRegexTest(email)
    ensures FirstInvalid(email, password, password) == None
  {
  }
}
