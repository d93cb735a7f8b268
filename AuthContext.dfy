/**
 * The session bridge: the local (user, loading) state mirrored from the backend,
 * the one navigation rule, the sign-out sequence with its storage purge, the
 * error contract of the delegated auth operations and the `useAuth` guard.
 */
module AuthContext {
  import opened Wrappers
  import opened JsString
  import opened BrowserStorage
  import opened Session

  // ---------------------------------------------------------------------------
  // Session -> User projection

  /** The local user record shown to the UI. */
  datatype User = User(id: string, email: string, username: Option<string>)

  /** JavaScript truthiness of a possibly missing string. */
  predicate Truthy(s: Option<string>)
  {
    s.Some? && s.value != ""
  }

  /**
   * `{ id: user.id, email: user.email || '', username: user.user_metadata?.username }`.
   */
  function Project(u: SessionUser): (r: User)
    ensures r.id == u.id
    ensures u.email.Some? ==> r.email == u.email.value
    ensures r.email == "" <==> !Truthy(u.email)
    ensures r.username.Some? <==> u.userMetadata.Some? && u.userMetadata.value.username.Some?
    ensures r.username.Some? ==> r.username == u.userMetadata.value.username
  {
    User(u.id,
         if Truthy(u.email) then u.email.value else "",
         if u.userMetadata.Some? then u.userMetadata.value.username else None)
  }

  /** The user a possibly null session projects to, if the session carries a user. */
  function ProjectedUser(s: Option<Session>): (u: Option<User>)
    ensures u.Some? <==> UserOf(s).Some?
    ensures u.Some? ==> u.value == Project(s.value.user.value)
  {
    if UserOf(s).Some? then Some(Project(UserOf(s).value)) else None
  }

  // ---------------------------------------------------------------------------
  // The (user, loading) reducers and the navigation rule

  /** The provider's observable state: the two React state cells and the current path. */
  datatype AuthState = AuthState(user: Option<User>, loading: bool, path: string)

  /** `useState(null)`, `useState(true)`, at whatever page the app was opened on. */
  function Initial(path: string): AuthState
  {
    AuthState(None, true, path)
  }

  /** The one navigation rule: a user-bearing SIGNED_IN event away from the root. */
  predicate Redirects(st: AuthState, e: AuthEvent)
  {
    e.kind == SignedIn && UserOf(e.session).Some? && st.path != "/"
  }

  /**
   * The `getSession().then(...)` callback: loading always ends; a session without a
   * user leaves the user as it was (it is not cleared).
   */
  function AfterInitialSession(st: AuthState, s: Option<Session>): (r: AuthState)
    ensures !r.loading
    ensures r.path == st.path
    ensures UserOf(s).None? ==> r.user == st.user
    ensures UserOf(s).Some? ==> r.user == Some(Project(s.value.user.value))
  {
    AuthState(if UserOf(s).Some? then ProjectedUser(s) else st.user, false, st.path)
  }

  /**
   * The `onAuthStateChange` callback: loading always ends; the user is the event's
   * projection, or null when the event's session has none; maybe a redirect.
   */
  function AfterEvent(st: AuthState, e: AuthEvent): (r: AuthState)
    ensures !r.loading
    ensures r.user.None? <==> UserOf(e.session).None?
    ensures UserOf(e.session).Some? ==> r.user == Some(Project(e.session.value.user.value))
    ensures r.path == st.path || r.path == "/"
  {
    AuthState(ProjectedUser(e.session), false, if Redirects(st, e) then "/" else st.path)
  }

  /**
   * The state after the given events are delivered in order: an empty run changes
   * nothing, and a longer run is its prefix followed by its last event.
   */
  function Replay(st: AuthState, events: seq<AuthEvent>): (r: AuthState)
    ensures events == [] ==> r == st
    ensures events != [] ==> r == AfterEvent(Replay(st, events[..|events| - 1]), events[|events| - 1])
    decreases |events|
  {
    if events == [] then st
    else
      var tail := events[1..];
      assert tail != [] ==>
        events[..|events| - 1][0] == events[0] && events[..|events| - 1][1..] == tail[..|tail| - 1];
      Replay(AfterEvent(st, events[0]), tail)
  }

  /** The path changes exactly on a user-bearing SIGNED_IN away from "/", and then to "/". */
  lemma RedirectExactly(st: AuthState, e: AuthEvent)
    ensures AfterEvent(st, e).path != st.path <==> e.kind == SignedIn && UserOf(e.session).Some? && st.path != "/"
    ensures e.kind == SignedIn && UserOf(e.session).Some? ==> AfterEvent(st, e).path == "/"
  {
  }

  /** Delivering the same event twice is the same as delivering it once. */
  lemma EventIdempotent(st: AuthState, e: AuthEvent)
    ensures AfterEvent(AfterEvent(st, e), e) == AfterEvent(st, e)
  {
  }

  /** After any non-empty run of events the state reflects the most recent event alone. */
  lemma ReplayReflectsLastEvent(st: AuthState, events: seq<AuthEvent>)
    requires |events| > 0
    ensures !Replay(st, events).loading
    ensures Replay(st, events).user == ProjectedUser(events[|events| - 1].session)
  {
  }

  /** Events only ever move the path to "/", and any user-bearing SIGNED_IN leaves it there. */
  lemma {:induction false} ReplayPath(st: AuthState, events: seq<AuthEvent>)
    ensures Replay(st, events).path == st.path || Replay(st, events).path == "/"
    ensures (exists i :: 0 <= i < |events| && events[i].kind == SignedIn && UserOf(events[i].session).Some?)
            ==> Replay(st, events).path == "/"
    decreases |events|
  {
    if events != [] {
      var n := |events|;
      var prefix := events[..n - 1];
      ReplayPath(st, prefix);
      if i :| 0 <= i < n && events[i].kind == SignedIn && UserOf(events[i].session).Some? {
        if i < n - 1 {
          assert prefix[i] == events[i];
        }
      }
    }
  }

  /** Signing in with any session and then signing out leaves no user and loading false. */
  lemma SignInThenSignOut(st: AuthState, s: Option<Session>)
    ensures Replay(st, [AuthEvent(SignedIn, s), AuthEvent(SignedOut, None)]).user.None?
    ensures !Replay(st, [AuthEvent(SignedIn, s), AuthEvent(SignedOut, None)]).loading
  {
    ReplayReflectsLastEvent(st, [AuthEvent(SignedIn, s), AuthEvent(SignedOut, None)]);
  }

  // ---------------------------------------------------------------------------
  // Storage purge

  /** The key under which a Google OAuth access token may be stored. */
  const TokenKey: string := "google_oauth_access_token"

  /** `https://accounts.google.com/o/oauth2/revoke?token=${token}` */
  function RevokeUrl(token: string): string
  {
    "https://accounts.google.com/o/oauth2/revoke?token=" + token
  }

  /** A key owned by the auth backend: `key.startsWith('sb-') || key.includes('supabase')`. */
  function IsAuthKey(key: string): (r: bool)
    ensures r <==> "sb-" <= key || exists i: nat :: OccursAt(key, "supabase", i)
  {
    StartsWith(key, "sb-") || Includes(key, "supabase")
  }

  /** A store with exactly its auth keys removed. */
  function Purged(m: map<string, string>): (r: map<string, string>)
    ensures forall k :: k in r <==> k in m && !IsAuthKey(k)
    ensures forall k :: k in r ==> r[k] == m[k]
  {
    map k | k in m && !IsAuthKey(k) :: m[k]
  }

  /** Purging twice is purging once. */
  lemma PurgeIdempotent(m: map<string, string>)
    ensures Purged(Purged(m)) == Purged(m)
  {
  }

  /** The token key is not an auth key: it contains no 'p' and does not start with 's'. */
  lemma TokenKeyNotAuthKey()
    ensures !IsAuthKey(TokenKey)
  {
    assert TokenKey[0] == 'g';
    assert "supabase"[2] == 'p';
    MissingCharExcludes(TokenKey, "supabase", 'p');
  }

  /** Removes every auth key of one store in place (the `forEach`/`removeItem` loop). */
  method PurgeAuthKeys(store: KeyValueStore)
    modifies store
    ensures store.items == Purged(old(store.items))
  {
    ghost var original := store.items;
    var keys := store.items.Keys;
    while keys != {}
      invariant keys <= original.Keys
      invariant store.items == map k | k in original && (k in keys || !IsAuthKey(k)) :: original[k]
      decreases keys
    {
      var key :| key in keys;
      if IsAuthKey(key) {
        store.RemoveItem(key);
      }
      keys := keys - {key};
    }
  }

  /**
   * `localStorage.getItem(TokenKey) || sessionStorage.getItem(TokenKey)`, kept only
   * when truthy: the local value wins unless it is missing or empty.
   */
  function StoredToken(local: map<string, string>, session: map<string, string>): (t: Option<string>)
    ensures t.Some? ==> t.value != ""
    ensures TokenKey in local && local[TokenKey] != "" ==> t == Some(local[TokenKey])
    ensures t.None? <==> (TokenKey !in local || local[TokenKey] == "") && (TokenKey !in session || session[TokenKey] == "")
    ensures t.Some? ==> (TokenKey in local && t.value == local[TokenKey]) || (TokenKey in session && t.value == session[TokenKey])
  {
    TokenOf(Lookup(local, TokenKey), Lookup(session, TokenKey))
  }

  /** `fromLocal || fromSession`, kept only when the result is truthy. */
  function TokenOf(fromLocal: Option<string>, fromSession: Option<string>): Option<string>
  {
    var token := if Truthy(fromLocal) then fromLocal else fromSession;
    if Truthy(token) then Some(token.value) else None
  }

  /** The purge never touches the token, so looking it up after the purge sees the original. */
  lemma PurgeKeepsToken(local: map<string, string>, session: map<string, string>)
    ensures StoredToken(Purged(local), Purged(session)) == StoredToken(local, session)
  {
    TokenKeyNotAuthKey();
  }

  // ---------------------------------------------------------------------------
  // Error contract of the delegated operations

  /** The backend's error object; `message` may be missing. */
  datatype BackendError = BackendError(message: Option<string>)

  /** A backend reply `{ data, error }`. */
  datatype Response<D> = Response(data: D, error: Option<BackendError>)

  /** `error.message || fallback`. */
  function ErrorMessage(e: BackendError, fallback: string): (m: string)
    ensures Truthy(e.message) ==> m == e.message.value
    ensures !Truthy(e.message) ==> m == fallback
    ensures fallback != "" ==> m != ""
  {
    if Truthy(e.message) then e.message.value else fallback
  }

  /** Return the data, or throw with the backend's message or the fallback. */
  function Delegate<D>(resp: Response<D>, fallback: string): (r: Result<D, string>)
    ensures r.Success? <==> resp.error.None?
    ensures r.Success? ==> r.value == resp.data
    ensures r.Failure? ==> r.error == ErrorMessage(resp.error.value, fallback)
  {
    if resp.error.Some? then Failure(ErrorMessage(resp.error.value, fallback)) else Success(resp.data)
  }

  /** `signUp` credentials: the username travels as profile metadata. */
  datatype SignUpRequest = SignUpRequest(email: string, password: string, data: Metadata)

  /** `signInWithPassword` credentials. */
  datatype PasswordRequest = PasswordRequest(email: string, password: string)

  /** `signInWithOAuth` options. */
  datatype OAuthRequest = OAuthRequest(provider: string, redirectTo: string, prompt: string)

  /** The credentials `signUp` sends: the username travels as profile metadata. */
  function SignUpRequestFor(email: string, password: string, username: string): SignUpRequest
  {
    SignUpRequest(email, password, Metadata(Some(username)))
  }

  /** A thrown message is never empty, and it is the backend's own whenever that one is non-empty. */
  predicate ThrownMessage(m: string, e: BackendError, fallback: string)
  {
    m != "" && (if Truthy(e.message) then m == e.message.value else m == fallback)
  }

  function SignUp<D>(backend: SignUpRequest -> Response<D>, email: string, password: string, username: string): (r: Result<D, string>)
    ensures var resp := backend(SignUpRequestFor(email, password, username));
            && (r.Success? <==> resp.error.None?)
            && (r.Success? ==> r.value == resp.data)
            && (r.Failure? ==> ThrownMessage(r.error, resp.error.value, "Signup failed"))
  {
    Delegate(backend(SignUpRequestFor(email, password, username)), "Signup failed")
  }

  function SignIn<D>(backend: PasswordRequest -> Response<D>, email: string, password: string): (r: Result<D, string>)
    ensures var resp := backend(PasswordRequest(email, password));
            && (r.Success? <==> resp.error.None?)
            && (r.Success? ==> r.value == resp.data)
            && (r.Failure? ==> ThrownMessage(r.error, resp.error.value, "Login failed"))
  {
    Delegate(backend(PasswordRequest(email, password)), "Login failed")
  }

  /** Google sign-in redirects back to the root of `origin` and forces account selection. */
  function SignInWithGoogle<D>(backend: OAuthRequest -> Response<D>, origin: string): (r: Result<D, string>)
    ensures var resp := backend(OAuthRequest("google", origin + "/", "select_account"));
            && (r.Success? <==> resp.error.None?)
            && (r.Success? ==> r.value == resp.data)
            && (r.Failure? ==> ThrownMessage(r.error, resp.error.value, "Google sign-in failed"))
  {
    Delegate(backend(OAuthRequest("google", origin + "/", "select_account")), "Google sign-in failed")
  }

  /**
   * The username `signUp` sends comes back as the local user's username, for any
   * backend user that keeps the request's metadata.
   */
  lemma SignUpUsernameRoundTrip(email: string, password: string, username: string, id: string, storedEmail: Option<string>)
    ensures Project(SessionUser(id, storedEmail, Some(SignUpRequestFor(email, password, username).data))).username
            == Some(username)
  {
  }

  const UseAuthOutsideProvider: string := "useAuth must be used within an AuthProvider"

  /** `useAuth`: the context value, or an error exactly when there is no provider. */
  function UseAuth<C>(context: Option<C>): (r: Result<C, string>)
    ensures r.Failure? <==> context.None?
    ensures context.Some? ==> r == Success(context.value)
    ensures r.Failure? ==> r.error == UseAuthOutsideProvider
  {
    if context.None? then Failure(UseAuthOutsideProvider) else Success(context.value)
  }

  // ---------------------------------------------------------------------------
  // The provider object

  /** Effects visible outside the provider's state. */
  datatype Effect =
    | Navigate(href: string)        // `window.location.href = ...`
    | Notify(message: string)       // the transient alert element
    | RevokePost(url: string)       // the fire-and-forget revoke `fetch`

  const SignOutAlert: string := "Sign out failed \U{2014} please try again."

  /** The mounted provider together with the page state and the two storage areas it touches. */
  class AuthProvider {
    var user: Option<User>
    var loading: bool
    var path: string
    var effects: seq<Effect>
    const localStorage: KeyValueStore
    const sessionStorage: KeyValueStore

    ghost predicate Valid()
      reads this
    {
      localStorage != sessionStorage
    }

    function State(): AuthState
      reads this
    {
      AuthState(user, loading, path)
    }

    constructor (path: string, localStorage: KeyValueStore, sessionStorage: KeyValueStore)
      requires localStorage != sessionStorage
      ensures Valid()
      ensures State() == Initial(path) && effects == []
      ensures this.localStorage == localStorage && this.sessionStorage == sessionStorage
    {
      this.user := None;
      this.loading := true;
      this.path := path;
      this.effects := [];
      this.localStorage := localStorage;
      this.sessionStorage := sessionStorage;
    }

    /** The initial `getSession()` resolving with session s. */
    method InitialSession(s: Option<Session>)
      modifies this`user, this`loading
      ensures State() == AfterInitialSession(old(State()), s)
    {
      var u := UserOf(s);
      if u.Some? {
        user := Some(Project(u.value));
      }
      loading := false;
    }

    /** One pushed auth event. */
    method OnEvent(kind: string, s: Option<Session>)
      modifies this`user, this`loading, this`path, this`effects
      ensures State() == AfterEvent(old(State()), AuthEvent(kind, s))
      ensures effects == old(effects) + if Redirects(old(State()), AuthEvent(kind, s)) then [Navigate("/")] else []
    {
      var u := UserOf(s);
      if u.Some? {
        user := Some(Project(u.value));
        if kind == SignedIn && path != "/" {
          path := "/";
          effects := effects + [Navigate("/")];
        }
      } else {
        user := None;
      }
      loading := false;
    }

    /**
     * `signOut`: backend sign-out (its error aborts with an alert and a rethrow), then the
     * best-effort purge, the best-effort token revoke and the redirect to "/".
     * `purgeThrows` and `lookupThrows` say whether the storage accesses of the purge and of
     * the token lookup throw; both are swallowed.
     */
    method SignOut(backendError: Option<BackendError>, purgeThrows: bool, lookupThrows: bool) returns (r: Outcome<string>)
      requires Valid()
      modifies this`path, this`effects, localStorage, sessionStorage
      ensures r.Fail? <==> backendError.Some?
      ensures backendError.Some? ==>
        && r == Fail(ErrorMessage(backendError.value, "Signout failed"))
        && effects == old(effects) + [Notify(SignOutAlert)]
        && path == old(path)
        && localStorage.items == old(localStorage.items)
        && sessionStorage.items == old(sessionStorage.items)
      ensures backendError.None? ==>
        && path == "/"
        && localStorage.items == (if purgeThrows then old(localStorage.items) else Purged(old(localStorage.items)))
        && sessionStorage.items == (if purgeThrows then old(sessionStorage.items) else Purged(old(sessionStorage.items)))
        && var token := StoredToken(old(localStorage.items), old(sessionStorage.items));
           effects == old(effects)
                      + (if !lookupThrows && token.Some? then [RevokePost(RevokeUrl(token.value))] else [])
                      + [Navigate("/")]
    {
      if backendError.Some? {
        effects := effects + [Notify(SignOutAlert)];
        r := Fail(ErrorMessage(backendError.value, "Signout failed"));
        return;
      }
      ghost var local0, session0 := localStorage.items, sessionStorage.items;
      if !purgeThrows {
        PurgeAuthKeys(localStorage);
        PurgeAuthKeys(sessionStorage);
        PurgeKeepsToken(local0, session0);
      }
      if !lookupThrows {
        var token := TokenOf(localStorage.GetItem(TokenKey), sessionStorage.GetItem(TokenKey));
        if token.Some? {
          effects := effects + [RevokePost(RevokeUrl(token.value))];
        }
      }
      path := "/";
      effects := effects + [Navigate("/")];
      r := Pass;
    }
  }
}
