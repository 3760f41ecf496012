/**
 * The web app's authentication store: the session fields the UI reads, the
 * actions that change them, and the localStorage keys those actions write.
 *
 * Each action is a method of `AuthStore`; what it does to the session and to
 * storage is stated by a function on values (`SignedIn`, `SignedInItems`,
 * `LoggedOut`, ...), and the lemmas below are about those functions.
 */
module AuthStore {
  import opened Wrappers
  import opened JsValue
  import opened Types
  import opened Client
  import opened Storage
  import Facade

  const LoginFailedText: string := "登录失败"
  const RegisterFailedText: string := "注册失败"

  /** What an awaited API call rejected with. */
  datatype Thrown = ErrorInstance(message: string) | OtherValue

  /** Every rejection of the API client is an `Error` whose message is the normalised message. */
  function Raised(e: ApiError): (t: Thrown)
    ensures t.ErrorInstance?
  {
    ErrorInstance(ErrorMessage(e.message))
  }

  /** `error instanceof Error ? error.message : fallback`. */
  function FailureMessage(t: Thrown, fallback: string): (m: string)
    ensures t.ErrorInstance? ==> m == t.message
    ensures t.OtherValue? ==> m == fallback
  {
    match t
    case ErrorInstance(message) => message
    case OtherValue => fallback
  }

  /** The store's fields. */
  datatype Session = Session(
    user: Option<User>,
    token: Option<string>,
    isAuthenticated: bool,
    isLoading: bool,
    error: Option<string>)

  /** The part of the session the persist middleware writes: `partialize`. */
  datatype Persisted = Persisted(user: Option<User>, token: Option<string>, isAuthenticated: bool)

  function Initial(): Session {
    Session(None, None, false, false, None)
  }

  function Partialize(s: Session): (p: Persisted)
    ensures p.user == s.user && p.token == s.token && p.isAuthenticated == s.isAuthenticated
  {
    Persisted(s.user, s.token, s.isAuthenticated)
  }

  /** `set({ isLoading: true, error: null })` at the start of login and register. */
  function Begun(s: Session): Session {
    s.(isLoading := true, error := None)
  }

  function SignedIn(s: Session, r: AuthResponse): Session {
    s.(user := r.user, token := Some(r.accessToken), isAuthenticated := true, isLoading := false)
  }

  function Failed(s: Session, message: string): Session {
    s.(error := Some(message), isLoading := false)
  }

  /** `set({ user: null, token: null, isAuthenticated: false })`. */
  function LoggedOut(s: Session): Session {
    s.(user := None, token := None, isAuthenticated := false)
  }

  function Loaded(s: Session, u: User, token: string): Session {
    s.(user := Some(u), token := Some(token), isAuthenticated := true)
  }

  /** The storage writes after a successful login or registration. */
  function SignedInItems(items: map<string, string>, r: AuthResponse): map<string, string> {
    var withToken := items[KeyName(AccessToken) := r.accessToken];
    var withRefresh :=
      if r.refreshToken.Some? && r.refreshToken.value != ""
      then withToken[KeyName(RefreshTokenKey) := r.refreshToken.value]
      else withToken;
    if r.user.Some? then withRefresh[KeyName(UserKey) := Stringify(r.user.value)] else withRefresh
  }

  /** `storage.getToken()` is truthy. */
  predicate HasStoredToken(items: map<string, string>) {
    var t := ItemOf(items, KeyName(AccessToken));
    t.Some? && t.value != ""
  }

  /**
   * The session agrees with storage: it holds a token exactly when it is
   * authenticated, and that token is the one in localStorage.
   */
  predicate Consistent(s: Session, items: map<string, string>) {
    (s.isAuthenticated <==> s.token.Some?)
    && (s.token.Some? ==> ItemOf(items, KeyName(AccessToken)) == s.token)
  }

  class AuthStore {
    var user: Option<User>
    var token: Option<string>
    var isAuthenticated: bool
    var isLoading: bool
    var error: Option<string>
    const storage: LocalStorage

    function State(): Session
      reads this
    {
      Session(user, token, isAuthenticated, isLoading, error)
    }

    constructor (storage: LocalStorage)
      ensures State() == Initial() && this.storage == storage
    {
      this.storage := storage;
      user := None;
      token := None;
      isAuthenticated := false;
      isLoading := false;
      error := None;
    }

    method Begin()
      modifies this
      ensures State() == Begun(old(State()))
    {
      isLoading := true;
      error := None;
    }

    /** The success path shared by login and register. */
    method Establish(r: AuthResponse)
      modifies this, storage
      ensures State() == SignedIn(old(State()), r)
      ensures storage.items == SignedInItems(old(storage.items), r)
    {
      storage.Set(AccessToken, r.accessToken);
      if r.refreshToken.Some? && r.refreshToken.value != "" {
        storage.Set(RefreshTokenKey, r.refreshToken.value);
      }
      if r.user.Some? {
        storage.SetUser(r.user.value);
      }
      user := r.user;
      token := Some(r.accessToken);
      isAuthenticated := true;
      isLoading := false;
    }

    /** The failure path: record the message, stop loading, and hand the rejection back to be re-thrown. */
    method Fail(t: Thrown, fallback: string) returns (rethrown: Option<Thrown>)
      modifies this
      ensures State() == Failed(old(State()), FailureMessage(t, fallback))
      ensures rethrown == Some(t)
    {
      error := Some(FailureMessage(t, fallback));
      isLoading := false;
      rethrown := Some(t);
    }

    /** `login`: the call sent, and what the caller's await re-throws. */
    method Login(email: string, password: string, reply: Result<AuthResponse, Thrown>)
      returns (sent: Facade.Operation, rethrown: Option<Thrown>)
      modifies this, storage
      ensures sent == Facade.Login(email, password)
      ensures reply.Ok? ==> State() == SignedIn(Begun(old(State())), reply.value)
                            && storage.items == SignedInItems(old(storage.items), reply.value)
                            && rethrown == None
      ensures reply.Err? ==> State() == Failed(Begun(old(State())), FailureMessage(reply.error, LoginFailedText))
                             && storage.items == old(storage.items)
                             && rethrown == Some(reply.error)
    {
      Begin();
      sent := Facade.Login(email, password);
      if reply.Ok? {
        Establish(reply.value);
        rethrown := None;
      } else {
        rethrown := Fail(reply.error, LoginFailedText);
      }
    }

    /** `register`: the optional data is spread into the request after e-mail and password. */
    method Register(email: string, password: string, phone: Option<string>, username: Option<string>,
                    verificationCode: Option<string>, reply: Result<AuthResponse, Thrown>)
      returns (sent: Facade.Operation, rethrown: Option<Thrown>)
      modifies this, storage
      ensures sent == Facade.Register(RegisterRequest(email, password, phone, username, verificationCode))
      ensures reply.Ok? ==> State() == SignedIn(Begun(old(State())), reply.value)
                            && storage.items == SignedInItems(old(storage.items), reply.value)
                            && rethrown == None
      ensures reply.Err? ==> State() == Failed(Begun(old(State())), FailureMessage(reply.error, RegisterFailedText))
                             && storage.items == old(storage.items)
                             && rethrown == Some(reply.error)
    {
      Begin();
      sent := Facade.Register(RegisterRequest(email, password, phone, username, verificationCode));
      if reply.Ok? {
        Establish(reply.value);
        rethrown := None;
      } else {
        rethrown := Fail(reply.error, RegisterFailedText);
      }
    }

    method Logout()
      modifies this, storage
      ensures State() == LoggedOut(old(State()))
      ensures storage.items == ClearedAuth(old(storage.items))
    {
      storage.ClearAuth();
      user := None;
      token := None;
      isAuthenticated := false;
    }

    method ClearError()
      modifies this
      ensures State() == old(State()).(error := None)
    {
      error := None;
    }

    /**
     * `loadUser`: without a stored token, go anonymous and call nothing;
     * otherwise ask for the current user and, if that fails, clear the auth keys.
     * `reply` is what the call would answer; `called` says whether it was made.
     */
    method LoadUser(reply: Result<User, Thrown>) returns (called: bool)
      modifies this, storage
      ensures called <==> HasStoredToken(old(storage.items))
      ensures !called ==> State() == LoggedOut(old(State())) && storage.items == old(storage.items)
      ensures called && reply.Ok? ==>
                State() == Loaded(old(State()), reply.value, old(storage.items)[KeyName(AccessToken)])
                && storage.items == old(storage.items)
      ensures called && reply.Err? ==>
                State() == LoggedOut(old(State())) && storage.items == ClearedAuth(old(storage.items))
    {
      var stored := storage.Get(AccessToken);
      if stored.None? || stored.value == "" {
        isAuthenticated := false;
        user := None;
        token := None;
        return false;
      }
      called := true;
      if reply.Ok? {
        user := Some(reply.value);
        token := Some(stored.value);
        isAuthenticated := true;
      } else {
        storage.ClearAuth();
        user := None;
        token := None;
        isAuthenticated := false;
      }
    }
  }

  // ---------------------------------------------------------------------------
  // Properties of the transitions

  /** A successful sign-in leaves the session authenticated with the response's token, which storage holds too. */
  lemma SignInEstablishesSession(s: Session, items: map<string, string>, r: AuthResponse)
    ensures SignedIn(s, r).isAuthenticated && SignedIn(s, r).token == Some(r.accessToken)
    ensures ItemOf(SignedInItems(items, r), KeyName(AccessToken)) == Some(r.accessToken)
    ensures r.user.Some? ==> ItemOf(SignedInItems(items, r), KeyName(UserKey)) == Some(Stringify(r.user.value))
    ensures r.user.None? ==> ItemOf(SignedInItems(items, r), KeyName(UserKey)) == ItemOf(items, KeyName(UserKey))
    ensures !(r.refreshToken.Some? && r.refreshToken.value != "") ==>
              ItemOf(SignedInItems(items, r), KeyName(RefreshTokenKey)) == ItemOf(items, KeyName(RefreshTokenKey))
    ensures Consistent(SignedIn(s, r), SignedInItems(items, r))
  {
    SetOnlyTouchesItsKey(items, AccessToken, r.accessToken, UserKey);
    SetOnlyTouchesItsKey(items, AccessToken, r.accessToken, RefreshTokenKey);
    var withToken := items[KeyName(AccessToken) := r.accessToken];
    var withRefresh := withToken;
    if r.refreshToken.Some? && r.refreshToken.value != "" {
      SetOnlyTouchesItsKey(withToken, RefreshTokenKey, r.refreshToken.value, AccessToken);
      SetOnlyTouchesItsKey(withToken, RefreshTokenKey, r.refreshToken.value, UserKey);
      withRefresh := withToken[KeyName(RefreshTokenKey) := r.refreshToken.value];
    }
    if r.user.Some? {
      SetOnlyTouchesItsKey(withRefresh, UserKey, Stringify(r.user.value), AccessToken);
      SetOnlyTouchesItsKey(withRefresh, UserKey, Stringify(r.user.value), RefreshTokenKey);
    }
  }

  /** A failed login or registration changes only `error` and `isLoading`. */
  lemma FailureKeepsIdentity(s: Session, message: string)
    ensures var f := Failed(Begun(s), message);
            f.user == s.user && f.token == s.token && f.isAuthenticated == s.isAuthenticated
            && f.error == Some(message) && !f.isLoading
    ensures Partialize(Failed(Begun(s), message)) == Partialize(s)
  {
  }

  /** Through this API client the '登录失败'/'注册失败' fallbacks never show: every rejection is an `Error`. */
  lemma ClientFailuresCarryTheirMessage(e: ApiError, fallback: string)
    ensures FailureMessage(Raised(e), fallback) == ErrorMessage(e.message)
  {
  }

  /** Logging out twice is the same as logging out once, for the session and for storage. */
  lemma LogoutIdempotent(s: Session, items: map<string, string>)
    ensures LoggedOut(LoggedOut(s)) == LoggedOut(s)
    ensures ClearedAuth(ClearedAuth(items)) == ClearedAuth(items)
  {
    assert ClearedAuth(ClearedAuth(items)) == ClearedAuth(items);
  }

  /** Logging out leaves the session anonymous, keeps `isLoading` and `error`, and removes the stored token. */
  lemma LogoutIsAnonymous(s: Session, items: map<string, string>)
    ensures var o := LoggedOut(s);
            o.user.None? && o.token.None? && !o.isAuthenticated && o.isLoading == s.isLoading && o.error == s.error
    ensures !HasStoredToken(ClearedAuth(items))
    ensures Consistent(LoggedOut(s), ClearedAuth(items))
  {
    ClearAuthFrame(items, AccessToken);
  }

  /** Only user, token and isAuthenticated are persisted: loading and error never reach storage. */
  lemma PersistIgnoresTransientFields(s: Session, loading: bool, error: Option<string>)
    ensures Partialize(s.(isLoading := loading, error := error)) == Partialize(s)
  {
  }

  /**
   * Every action keeps the session consistent with storage: whenever the
   * store is authenticated, its token is the stored access token.
   */
  lemma ActionsPreserveConsistency(s: Session, items: map<string, string>, r: AuthResponse, message: string, u: User)
    requires Consistent(s, items)
    ensures Consistent(Initial(), items)
    ensures Consistent(Begun(s), items)
    ensures Consistent(SignedIn(Begun(s), r), SignedInItems(items, r))
    ensures Consistent(Failed(Begun(s), message), items)
    ensures Consistent(LoggedOut(s), ClearedAuth(items))
    ensures Consistent(s.(error := None), items)
    ensures !HasStoredToken(items) ==> Consistent(LoggedOut(s), items)
    ensures HasStoredToken(items) ==> Consistent(Loaded(s, u, items[KeyName(AccessToken)]), items)
  {
    SignInEstablishesSession(Begun(s), items, r);
    LogoutIsAnonymous(s, items);
  }
}
