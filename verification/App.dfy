/**
 * The application root (src/App.jsx): the authentication state (`isAuthenticated`, `user`,
 * `loading`) kept in step with the authentication provider, the `login`/`logout` calls handed
 * to the pages, and the route table gated on that state. The provider's answers are inputs here:
 * the outcome of the initial session query, each event it delivers, and the result of a sign-in
 * or sign-out request.
 */
module Session {
  import opened Optional
  import opened Ascii

  /** The provider's user record; the application only stores and passes it on. */
  datatype User = User(id: string, email: string)
  datatype AuthSession = AuthSession(user: User)

  /** How the initial `getSession()` settles: with a session, with none, or by rejecting. */
  datatype SessionQuery = Found(session: AuthSession) | NoSession | Rejected

  /** How `signInWithPassword` settles: no error, an error object with a message, or a thrown exception. */
  datatype SignInResult = SignInOk | SignInError(message: string) | SignInThrew

  /** How `signOut()` settles: its returned error (which the application does not look at), or a thrown exception. */
  datatype SignOutResult = SignOutReturned(error: Option<string>) | SignOutThrew

  datatype ToastKind = Success | Failure | Info
  datatype Toast = Toast(kind: ToastKind, message: string)

  datatype AuthState = AuthState(isAuthenticated: bool, user: Option<User>, loading: bool)

  const Initial := AuthState(false, None, true)

  /** The authentication flag and the stored user agree. */
  predicate Consistent(st: AuthState) { st.isAuthenticated <==> st.user.Some? }

  // ---------------------------------------------------------------------------
  // Transitions

  /**
   * The state after the initial session check. A found session signs the user in; either way the
   * loading flag clears, except when the query rejects: the check then stops before clearing it.
   */
  function AfterSessionCheck(st: AuthState, q: SessionQuery): (r: AuthState)
    ensures q.Found? ==> r == AuthState(true, Some(q.session.user), false)
    ensures q == NoSession ==> r == st.(loading := false)
    ensures q == Rejected ==> r == st
  {
    match q
    case Found(s) => AuthState(true, Some(s.user), false)
    case NoSession => st.(loading := false)
    case Rejected => st
  }

  /** The state after a provider event: "SIGNED_IN" with a session signs in, "SIGNED_OUT" signs out, anything else is ignored. */
  function AfterEvent(st: AuthState, event: string, session: Option<AuthSession>): (r: AuthState)
    ensures event == "SIGNED_IN" && session.Some? ==> r == st.(isAuthenticated := true, user := Some(session.value.user))
    ensures event == "SIGNED_OUT" ==> r == st.(isAuthenticated := false, user := None)
    ensures !(event == "SIGNED_IN" && session.Some?) && event != "SIGNED_OUT" ==> r == st
    ensures r.loading == st.loading
  {
    var st1 := if event == "SIGNED_IN" && session.Some? then st.(isAuthenticated := true, user := Some(session.value.user)) else st;
    if event == "SIGNED_OUT" then st1.(isAuthenticated := false, user := None) else st1
  }

  /** The toasts a provider event raises. */
  function EventToasts(event: string, session: Option<AuthSession>): (ts: seq<Toast>)
    ensures |ts| <= 1
    ensures |ts| == 1 <==> (event == "SIGNED_IN" && session.Some?) || event == "SIGNED_OUT"
    ensures forall t :: t in ts ==> t.kind == (if event == "SIGNED_OUT" then Info else Success)
    ensures event == "SIGNED_IN" && session.Some? ==> ts == [Toast(Success, "Successfully signed in!")]
    ensures event == "SIGNED_OUT" ==> ts == [Toast(Info, "Signed out")]
  {
    if event == "SIGNED_IN" && session.Some? then [Toast(Success, "Successfully signed in!")]
    else if event == "SIGNED_OUT" then [Toast(Info, "Signed out")]
    else []
  }

  /** What `login` resolves to: false exactly when the provider reports an error or throws. */
  function LoginResult(r: SignInResult): (ok: bool)
    ensures ok <==> r == SignInOk
  {
    match r
    case SignInOk => true
    case SignInError(_) => false
    case SignInThrew => false
  }

  /** The toasts `login` raises: exactly one error toast on failure (the provider's own message when it gave one), none on success. */
  function LoginToasts(r: SignInResult): (ts: seq<Toast>)
    ensures |ts| == (if LoginResult(r) then 0 else 1)
    ensures forall t :: t in ts ==> t.kind == Failure
    ensures r.SignInError? ==> ts == [Toast(Failure, r.message)]
    ensures r == SignInThrew ==> ts == [Toast(Failure, "An error occurred during login")]
  {
    match r
    case SignInOk => []
    case SignInError(m) => [Toast(Failure, m)]
    case SignInThrew => [Toast(Failure, "An error occurred during login")]
  }

  /** The toasts `logout` raises: one only when the request throws; a returned error goes unreported. */
  function LogoutToasts(r: SignOutResult): (ts: seq<Toast>)
    ensures |ts| == 1 <==> r == SignOutThrew
    ensures r.SignOutReturned? ==> ts == []
    ensures r == SignOutThrew ==> ts[0].kind == Failure && ts[0].message == "Error signing out"
  {
    match r
    case SignOutReturned(_) => []
    case SignOutThrew => [Toast(Failure, "Error signing out")]
  }

  /** Everything the root reacts to. `login` and `logout` are included to show they change nothing. */
  datatype Input =
    | Check(q: SessionQuery)
    | Event(name: string, session: Option<AuthSession>)
    | Login(signIn: SignInResult)
    | Logout(signOut: SignOutResult)

  /** One input's effect on the state: `login` and `logout` leave it to the provider's events. */
  function Step(st: AuthState, i: Input): (r: AuthState)
    ensures i.Login? || i.Logout? ==> r == st
    ensures Consistent(st) ==> Consistent(r)
    ensures !st.loading ==> !r.loading
  {
    match i
    case Check(q) => AfterSessionCheck(st, q)
    case Event(name, s) => AfterEvent(st, name, s)
    case Login(_) => st
    case Logout(_) => st
  }

  function Run(st: AuthState, inputs: seq<Input>): AuthState
    decreases |inputs|
  {
    if inputs == [] then st else Run(Step(st, inputs[0]), inputs[1..])
  }

  /** An input that can sign the user in. */
  predicate SignsIn(i: Input)
  {
    (i.Check? && i.q.Found?) || (i.Event? && i.name == "SIGNED_IN" && i.session.Some?)
  }

  /** An input that can clear the loading flag. */
  predicate ClearsLoading(i: Input)
  {
    i.Check? && i.q != Rejected
  }

  /** Every transition keeps the flag and the stored user in agreement. */
  lemma {:induction false} RunKeepsConsistent(st: AuthState, inputs: seq<Input>)
    requires Consistent(st)
    ensures Consistent(Run(st, inputs))
    decreases |inputs|
  {
    if inputs != [] {
      RunKeepsConsistent(Step(st, inputs[0]), inputs[1..]);
    }
  }

  /** Every reachable state is consistent. */
  lemma ReachableConsistent(inputs: seq<Input>)
    ensures Consistent(Run(Initial, inputs))
  {
    RunKeepsConsistent(Initial, inputs);
  }

  /** Only the session check and provider "SIGNED_IN" events sign a user in; `login` never does. */
  lemma {:induction false} SignInOnlyByProvider(st: AuthState, inputs: seq<Input>)
    requires !st.isAuthenticated
    requires Run(st, inputs).isAuthenticated
    ensures exists k :: 0 <= k < |inputs| && SignsIn(inputs[k])
    decreases |inputs|
  {
    var next := Step(st, inputs[0]);
    if !SignsIn(inputs[0]) {
      assert !next.isAuthenticated;
      SignInOnlyByProvider(next, inputs[1..]);
      var k :| 0 <= k < |inputs[1..]| && SignsIn(inputs[1..][k]);
      assert inputs[k + 1] == inputs[1..][k];
    }
  }

  /** The loading flag clears exactly once a session check has settled without rejecting, and never comes back. */
  lemma {:induction false} LoadingClears(st: AuthState, inputs: seq<Input>)
    requires st.loading
    ensures !Run(st, inputs).loading <==> exists k :: 0 <= k < |inputs| && ClearsLoading(inputs[k])
    decreases |inputs|
  {
    if inputs != [] {
      var next := Step(st, inputs[0]);
      if ClearsLoading(inputs[0]) {
        LoadingStaysClear(next, inputs[1..]);
      } else {
        assert next.loading;
        LoadingClears(next, inputs[1..]);
        if exists k :: 0 <= k < |inputs| && ClearsLoading(inputs[k]) {
          var k :| 0 <= k < |inputs| && ClearsLoading(inputs[k]);
          assert k > 0 && inputs[1..][k - 1] == inputs[k];
        }
        if exists k :: 0 <= k < |inputs[1..]| && ClearsLoading(inputs[1..][k]) {
          var k :| 0 <= k < |inputs[1..]| && ClearsLoading(inputs[1..][k]);
          assert inputs[k + 1] == inputs[1..][k];
        }
      }
    }
  }

  lemma {:induction false} LoadingStaysClear(st: AuthState, inputs: seq<Input>)
    requires !st.loading
    ensures !Run(st, inputs).loading
    decreases |inputs|
  {
    if inputs != [] {
      LoadingStaysClear(Step(st, inputs[0]), inputs[1..]);
    }
  }

  // ---------------------------------------------------------------------------
  // Routes

  /** What the root renders for a location. */
  datatype View = Spinner | LoginPage | RedirectToLogin | Page(name: string) | NoMatch

  /**
   * A location without its trailing slashes; the root "/" keeps its one slash. The router ignores
   * trailing slashes when it matches a route.
   */
  function TrimTrailingSlashes(path: string): (r: string)
    ensures |r| <= |path| && r == path[..|r|]
    ensures forall i :: |r| <= i < |path| ==> path[i] == '/'
    ensures |r| <= 1 || r[|r| - 1] != '/'
    ensures path != [] ==> r != []
    decreases |path|
  {
    if |path| > 1 && path[|path| - 1] == '/' then TrimTrailingSlashes(path[..|path| - 1]) else path
  }

  /** The form in which the router compares a location with a route: no trailing slashes, and letters in one case. */
  function RoutePath(path: string): string
  {
    LowerString(TrimTrailingSlashes(path))
  }

  /** The pages nested under the protected "/" route. */
  function ProtectedPage(path: string): (r: Option<string>)
    ensures r.Some? <==> RoutePath(path) in ["/", "/automations", "/analytics", "/settings"]
    ensures r.Some? ==> RoutePath(path) != "/login"
    ensures r == Some("Dashboard") <==> RoutePath(path) == "/"
    ensures r == Some("Automations") <==> RoutePath(path) == "/automations"
    ensures r == Some("Analytics") <==> RoutePath(path) == "/analytics"
    ensures r == Some("Settings") <==> RoutePath(path) == "/settings"
  {
    var p := RoutePath(path);
    if p == "/" then Some("Dashboard")
    else if p == "/automations" then Some("Automations")
    else if p == "/analytics" then Some("Analytics")
    else if p == "/settings" then Some("Settings")
    else None
  }

  /** The location of the login route. */
  predicate IsLoginPath(path: string): (b: bool)
    ensures b ==> ProtectedPage(path).None?
    ensures path == "/login" ==> b
  {
    RoutePath(path) == "/login"
  }

  /**
   * The root's output: a spinner while loading, otherwise the route table; a protected page is
   * shown inside the frame when signed in and replaced by a redirect to "/login" otherwise.
   */
  function Render(st: AuthState, path: string): (v: View)
    ensures v == Spinner <==> st.loading
    ensures v.Page? ==> !st.loading && st.isAuthenticated && ProtectedPage(path) == Some(v.name)
    ensures v == RedirectToLogin ==> !st.isAuthenticated
    ensures !st.loading && IsLoginPath(path) ==> v == LoginPage
    ensures !st.loading && ProtectedPage(path).Some? ==>
      v == (if st.isAuthenticated then Page(ProtectedPage(path).value) else RedirectToLogin)
    ensures !st.loading && !IsLoginPath(path) && ProtectedPage(path).None? ==> v == NoMatch
  {
    if st.loading then Spinner
    else if IsLoginPath(path) then LoginPage
    else match ProtectedPage(path)
      case None => NoMatch
      case Some(name) => if st.isAuthenticated then Page(name) else RedirectToLogin
  }

  /** Trimming commutes with lower-casing, as '/' has no case. */
  lemma {:induction false} TrimLowerCommute(path: string)
    ensures TrimTrailingSlashes(LowerString(path)) == LowerString(TrimTrailingSlashes(path))
    decreases |path|
  {
    var low := LowerString(path);
    if |path| > 1 && path[|path| - 1] == '/' {
      var front := path[..|path| - 1];
      assert low[|low| - 1] == '/';
      assert low[..|low| - 1] == LowerString(front);
      TrimLowerCommute(front);
    }
  }

  /** A trailing slash does not change what is rendered. */
  lemma TrailingSlashIgnored(st: AuthState, path: string)
    requires path != []
    ensures Render(st, path + "/") == Render(st, path)
  {
    var longer := path + "/";
    assert longer[..|longer| - 1] == path;
  }

  /** What is rendered depends on the location only through its route form. */
  lemma RenderByRoutePath(st: AuthState, p: string, q: string)
    requires RoutePath(p) == RoutePath(q)
    ensures Render(st, p) == Render(st, q)
  {
  }

  /** Letter case does not change what is rendered. */
  lemma CaseIgnored(st: AuthState, path: string)
    ensures Render(st, LowerString(path)) == Render(st, path)
  {
    var trimmed := TrimTrailingSlashes(path);
    TrimLowerCommute(path);
    LowerStringIdempotent(trimmed);
    assert RoutePath(LowerString(path)) == LowerString(LowerString(trimmed));
    RenderByRoutePath(st, LowerString(path), path);
  }

  /** A settled "SIGNED_OUT" always locks every protected page, whatever the prior state. */
  lemma SignedOutLocksPages(st: AuthState, session: Option<AuthSession>, path: string)
    requires !st.loading
    ensures !Render(AfterEvent(st, "SIGNED_OUT", session), path).Page?
    ensures ProtectedPage(path).Some? ==> Render(AfterEvent(st, "SIGNED_OUT", session), path) == RedirectToLogin
  {
  }

  // ---------------------------------------------------------------------------
  // The root's state

  class App {
    var isAuthenticated: bool
    var user: Option<User>
    var loading: bool
    /** Toasts raised so far, oldest first. */
    var toasts: seq<Toast>

    function State(): AuthState
      reads this
    {
      AuthState(isAuthenticated, user, loading)
    }

    constructor ()
      ensures State() == Initial && toasts == []
    {
      isAuthenticated := false;
      user := None;
      loading := true;
      toasts := [];
    }

    /** `checkSession`, given how `getSession()` settled. */
    method CheckSession(q: SessionQuery)
      modifies this`isAuthenticated, this`user, this`loading
      ensures State() == AfterSessionCheck(old(State()), q)
    {
      if q == Rejected {
        return;
      }
      if q.Found? {
        isAuthenticated := true;
        user := Some(q.session.user);
      }
      loading := false;
    }

    /** The callback registered with `onAuthStateChange`. */
    method OnAuthStateChange(event: string, session: Option<AuthSession>)
      modifies this`isAuthenticated, this`user, this`toasts
      ensures State() == AfterEvent(old(State()), event, session)
      ensures toasts == old(toasts) + EventToasts(event, session)
    {
      if event == "SIGNED_IN" && session.Some? {
        isAuthenticated := true;
        user := Some(session.value.user);
        toasts := toasts + [Toast(Success, "Successfully signed in!")];
      }
      if event == "SIGNED_OUT" {
        isAuthenticated := false;
        user := None;
        toasts := toasts + [Toast(Info, "Signed out")];
      }
    }

    /** `login`, given how the provider's sign-in settled; the state is left to the provider's event. */
    method Login(result: SignInResult) returns (ok: bool)
      modifies this`toasts
      ensures ok == LoginResult(result)
      ensures toasts == old(toasts) + LoginToasts(result)
    {
      match result
      case SignInError(m) =>
        toasts := toasts + [Toast(Failure, m)];
        return false;
      case SignInThrew =>
        toasts := toasts + [Toast(Failure, "An error occurred during login")];
        return false;
      case SignInOk =>
        return true;
    }

    /** `logout`, given how the provider's sign-out settled; the state is left to the provider's event. */
    method Logout(result: SignOutResult)
      modifies this`toasts
      ensures toasts == old(toasts) + LogoutToasts(result)
    {
      if result == SignOutThrew {
        toasts := toasts + [Toast(Failure, "Error signing out")];
      }
    }
  }
}
