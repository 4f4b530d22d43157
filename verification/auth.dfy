/** The session container: the in-memory session state, its rehydration
    from the persisted store at startup, sign-in, sign-out, and the hook
    that reads the session. The login response and every storage call's
    success or failure are inputs of the transitions. */
module Auth {
  import opened Wrappers
  import opened Storage
  import opened Http

  /** The signed-in user: an opaque JSON object. */
  datatype User = User(fields: map<string, string>)

  datatype AuthState = AuthState(token: Option<string>, user: Option<User>, isLoading: bool)

  /** The persisted keys. */
  const TokenKey: string := "userToken"
  const UserKey: string := "userData"

  /** The state before the persisted session has been read. */
  const Initial: AuthState := AuthState(None, None, true)

  /** The state every failure of the startup read falls back to. */
  const SignedOut: AuthState := AuthState(None, None, false)

  /** The stored user entry is present and truthy but does not parse. */
  ghost predicate UserEntryCorrupt(store: Store, codec: Codec<User>)
  {
    UserKey in store && store[UserKey] != "" && codec.decode(store[UserKey]).Err?
  }

  /** `loadToken`: read the token and the serialised user; a truthy user
      entry is parsed, anything else gives no user. Any read or parse
      failure is swallowed and gives the signed-out state. Either way the
      session is no longer loading. */
  function LoadToken(store: Store, readToken: Effect, readUser: Effect, codec: Codec<User>): (s: AuthState)
    ensures !s.isLoading
    ensures readToken.Throws? || readUser.Throws? || UserEntryCorrupt(store, codec) ==> s == SignedOut
    ensures readToken.Completes? && readUser.Completes? && !UserEntryCorrupt(store, codec) ==>
        s.token == Lookup(store, TokenKey)
        && (UserKey in store && store[UserKey] != "" ==> s.user == Some(codec.decode(store[UserKey]).value))
        && (UserKey !in store || store[UserKey] == "" ==> s.user == None)
  {
    match GetItem(store, TokenKey, readToken)
    case Err(_) => SignedOut
    case Ok(token) =>
      match GetItem(store, UserKey, readUser)
      case Err(_) => SignedOut
      case Ok(userStr) =>
        if !Truthy(userStr) then AuthState(token, None, false)
        else
          match codec.decode(userStr.value)
          case Err(_) => SignedOut
          case Ok(user) => AuthState(token, Some(user), false)
  }

  /** The parsed login response; `token` and `user` are read on success,
      `error` on failure. */
  datatype LoginBody = LoginBody(token: string, user: User, error: Option<string>)

  /** The result of a sign-in or sign-out: the new state and store, the
      error raised to the caller if any, and the screen navigated to. */
  datatype Transition = Transition(state: AuthState, store: Store, raised: Option<string>, navigateTo: Option<string>)

  /** The server accepted the credentials and sent a parsable body. */
  predicate Accepted(response: Response<LoginBody>)
  {
    response.Received? && response.ok && response.body.Ok?
  }

  /** `signIn`: post the credentials; a rejection raises the server's
      error (or "Login failed"); on acceptance persist the token and the
      serialised user, then set them in the session, keep `isLoading`, and
      go to the home screen. A storage failure is raised as is, after any
      write that already happened. */
  function SignIn(state: AuthState, store: Store, response: Response<LoginBody>,
                  writeToken: Effect, writeUser: Effect, codec: Codec<User>): (t: Transition)
    ensures AgreeExcept(store, t.store, {TokenKey, UserKey})
    ensures t.raised.None? <==> Accepted(response) && writeToken.Completes? && writeUser.Completes?
    ensures t.raised.Some? ==> t.state == state && t.navigateTo == None
    ensures !Accepted(response) ==> t.store == store
    ensures response.Unreachable? ==> t.raised == Some(response.message)
    ensures response.Received? && response.body.Err? ==> t.raised == Some(response.body.message)
    ensures response.Received? && !response.ok && response.body.Ok? ==>
        t.raised == Some(OrElse(response.body.value.error, "Login failed"))
    ensures Accepted(response) && writeToken.Throws? ==>
        t.store == store && t.raised == Some(writeToken.message)
    ensures Accepted(response) && writeToken.Completes? && writeUser.Throws? ==>
        t.store == store[TokenKey := response.body.value.token] && t.raised == Some(writeUser.message)
    ensures t.raised.None? ==>
        var body := response.body.value;
        t.state == AuthState(Some(body.token), Some(body.user), state.isLoading)
        && t.store == store[TokenKey := body.token][UserKey := codec.encode(body.user)]
        && t.navigateTo == Some("/")
  {
    match response
    case Unreachable(m) => Transition(state, store, Some(m), None)
    case Received(ok, parsed) =>
      match parsed
      case Err(m) => Transition(state, store, Some(m), None)
      case Ok(body) =>
        if !ok then Transition(state, store, Some(OrElse(body.error, "Login failed")), None)
        else
          match SetItem(store, TokenKey, body.token, writeToken)
          case Err(m) => Transition(state, store, Some(m), None)
          case Ok(s1) =>
            match SetItem(s1, UserKey, codec.encode(body.user), writeUser)
            case Err(m) => Transition(state, s1, Some(m), None)
            case Ok(s2) =>
              AgreeExceptWiden(store, s1, {TokenKey}, {TokenKey, UserKey});
              AgreeExceptWiden(s1, s2, {UserKey}, {TokenKey, UserKey});
              AgreeExceptChain(store, s1, s2, {TokenKey, UserKey});
              Transition(state.(token := Some(body.token), user := Some(body.user)), s2, None, Some("/"))
  }

  /** `signOut`: remove the token, then the user, then clear them from the
      session and go to the login screen. A failing removal is only logged:
      nothing is raised, and the session keeps its token and user because
      the state update comes after the removals. */
  function SignOut(state: AuthState, store: Store, removeToken: Effect, removeUser: Effect): (t: Transition)
    ensures t.raised == None
    ensures AgreeExcept(store, t.store, {TokenKey, UserKey})
    ensures removeToken.Completes? && removeUser.Completes? ==>
        t.state == AuthState(None, None, state.isLoading)
        && t.store == store - {TokenKey, UserKey}
        && t.navigateTo == Some("/(auth)/login")
    ensures removeToken.Throws? ==> t.state == state && t.store == store && t.navigateTo == None
    ensures removeToken.Completes? && removeUser.Throws? ==>
        t.state == state && t.store == store - {TokenKey} && t.navigateTo == None
  {
    match RemoveItem(store, TokenKey, removeToken)
    case Err(_) => Transition(state, store, None, None)
    case Ok(s1) =>
      match RemoveItem(s1, UserKey, removeUser)
      case Err(_) => Transition(state, s1, None, None)
      case Ok(s2) =>
        assert s2 == store - {TokenKey, UserKey};
        Transition(state.(token := None, user := None), s2, None, Some("/(auth)/login"))
  }

  /** `useAuth`: the session of the enclosing provider, or an error when
      there is none. */
  function UseAuth(provided: Option<AuthState>): (r: Result<AuthState>)
    ensures provided.Some? ==> r == Ok(provided.value)
    ensures provided.None? ==> r == Err("useAuth must be used within an AuthProvider")
  {
    match provided
    case Some(s) => Ok(s)
    case None => Err("useAuth must be used within an AuthProvider")
  }

  /** A successful sign-in survives a restart: reading the store it wrote
      gives back the same token and user. */
  lemma SignInSurvivesRestart(state: AuthState, store: Store, body: LoginBody, codec: Codec<User>)
    requires RoundTrips(codec, body.user)
    ensures var t := SignIn(state, store, Received(true, Ok(body)), Completes, Completes, codec);
            LoadToken(t.store, Completes, Completes, codec) == AuthState(Some(body.token), Some(body.user), false)
  {
  }

  /** A completed sign-out survives a restart: the store holds no
      session any more. */
  lemma SignOutSurvivesRestart(state: AuthState, store: Store, codec: Codec<User>)
    ensures var t := SignOut(state, store, Completes, Completes);
            LoadToken(t.store, Completes, Completes, codec) == SignedOut
  {
  }

  /** The startup read does not tie the token to the user: a stored token
      without a stored user gives a session with a token and no user. */
  lemma TokenWithoutUser(token: string, codec: Codec<User>)
    ensures LoadToken(map[TokenKey := token], Completes, Completes, codec) == AuthState(Some(token), None, false)
  {
  }

  /** ... and a stored user without a token gives a user and no token. */
  lemma UserWithoutToken(user: User, codec: Codec<User>)
    requires RoundTrips(codec, user)
    ensures LoadToken(map[UserKey := codec.encode(user)], Completes, Completes, codec) == AuthState(None, Some(user), false)
  {
  }

  /** The loading flag: the session starts loading, the startup read always
      ends it, and sign-in and sign-out never touch it. */
  lemma LoadingLifecycle(state: AuthState, store: Store, response: Response<LoginBody>,
                         e1: Effect, e2: Effect, codec: Codec<User>)
    ensures Initial.isLoading && Initial.token == None && Initial.user == None
    ensures !LoadToken(store, e1, e2, codec).isLoading
    ensures SignIn(state, store, response, e1, e2, codec).state.isLoading == state.isLoading
    ensures SignOut(state, store, e1, e2).state.isLoading == state.isLoading
  {
  }
}
