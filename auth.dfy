/** The session manager: the provider that owns the bearer token, the signed-in user,
    the start-up `loading` flag and the `'token'` entry of the browser's local storage.
    Each operation is treated as atomic; the remote service's answer is an input. */
module Auth {
  import opened Remote
  import opened Records

  /** Lifetime, in minutes, requested for every token issued by the service. */
  const TokenLifetimeMins := 30

  /** The requests the provider sends. `Me` carries the token as a bearer credential
      (section 2.1 of RFC 6750); the token itself is an opaque string here. */
  datatype Request =
    | Me(bearer: string)
    | LoginRequest(username: string, password: string, expiresInMins: int)
    | RefreshRequest(refreshToken: Option<string>, expiresInMins: int)

  /** A successful login response: the new token and the profile it belongs to. */
  datatype LoginReply = LoginReply(token: string, profile: UserRecord)

  /** What `login` resolves to: `{ success: true }` or `{ success: false, message }`. */
  datatype LoginResult = LoginResult(success: bool, message: Option<string>)

  /** The observable state: the three state cells and the stored `'token'` entry. */
  datatype Session = Session(
    user: Option<UserRecord>,
    token: Option<string>,
    loading: bool,
    stored: Option<string>)

  /** JavaScript truthiness of an optional string: present and non-empty. */
  predicate Truthy(t: Option<string>)
  {
    t.Some? && t.value != ""
  }

  /** A user is only ever signed in with a token, and a token held in memory is
      always the one in storage. */
  predicate Consistent(s: Session)
  {
    && (s.user.Some? ==> s.token.Some?)
    && (s.token.Some? ==> s.stored == s.token)
  }

  /** The state when the provider mounts, given what storage holds under `'token'`. */
  function Initial(stored: Option<string>): (s: Session)
    ensures s.user.None? && s.loading && s.stored == stored
    ensures s.token.Some? <==> Truthy(stored)
    ensures s.token.Some? ==> s.token == stored
    ensures Consistent(s)
  {
    Session(None, if Truthy(stored) then stored else None, true, stored)
  }

  function LoggedOut(s: Session): Session
  {
    s.(user := None, token := None, stored := None)
  }

  /** The request the verification effect sends: none unless the token is truthy. */
  function VerifyRequest(s: Session): Option<Request>
  {
    if Truthy(s.token) then Some(Me(s.token.value)) else None
  }

  /** The verification effect: a truthy token is checked against the service; success
      installs the returned profile, failure logs out; in every case `loading` ends false. */
  function Verified(s: Session, reply: Reply<UserRecord>): Session
  {
    var checked :=
      if !Truthy(s.token) then s
      else match reply
        case Ok(profile) => s.(user := Some(profile))
        case Fail(_) => LoggedOut(s);
    checked.(loading := false)
  }

  function LoggedIn(s: Session, reply: Reply<LoginReply>): Session
  {
    match reply
    case Ok(d) => s.(stored := Some(d.token), token := Some(d.token), user := Some(d.profile))
    case Fail(_) => s
  }

  function LoginOutcome(reply: Reply<LoginReply>): (r: LoginResult)
    ensures r.success <==> reply.Ok?
    ensures r.success ==> r.message.None?
    ensures !r.success ==> r.message == Some(MessageOr(reply.message, "Login failed"))
  {
    match reply
    case Ok(_) => LoginResult(true, None)
    case Fail(m) => LoginResult(false, Some(MessageOr(m, "Login failed")))
  }

  function Refreshed(s: Session, reply: Reply<string>): Session
  {
    match reply
    case Ok(t) => s.(stored := Some(t), token := Some(t))
    case Fail(_) => LoggedOut(s)
  }

  // ---------------------------------------------------------------------------
  // Properties of single operations

  lemma LogoutClearsEverything(s: Session)
    ensures LoggedOut(s).user.None? && LoggedOut(s).token.None? && LoggedOut(s).stored.None?
    ensures LoggedOut(s).loading == s.loading
    ensures LoggedOut(LoggedOut(s)) == LoggedOut(s)
  {
  }

  lemma VerifyWithoutToken(s: Session, reply: Reply<UserRecord>)
    requires !Truthy(s.token)
    ensures VerifyRequest(s).None?
    ensures Verified(s, reply) == s.(loading := false)
  {
  }

  lemma VerifyOutcomes(s: Session, reply: Reply<UserRecord>)
    requires Truthy(s.token)
    ensures VerifyRequest(s) == Some(Me(s.token.value))
    ensures reply.Ok? ==> Verified(s, reply) == s.(user := Some(reply.data), loading := false)
    ensures reply.Fail? ==> Verified(s, reply) == LoggedOut(s).(loading := false)
    ensures !Verified(s, reply).loading
  {
  }

  lemma LoginOutcomes(s: Session, reply: Reply<LoginReply>)
    ensures reply.Ok? ==> LoggedIn(s, reply) == s.(stored := Some(reply.data.token),
      token := Some(reply.data.token), user := Some(reply.data.profile))
    ensures reply.Fail? ==> LoggedIn(s, reply) == s
    ensures reply.Fail? ==> LoginOutcome(reply).message.value != ""
  {
  }

  lemma RefreshOutcomes(s: Session, reply: Reply<string>)
    ensures reply.Ok? ==> Refreshed(s, reply).user == s.user
    ensures reply.Ok? ==> Refreshed(s, reply).token == Refreshed(s, reply).stored == Some(reply.data)
    ensures reply.Fail? ==> Refreshed(s, reply) == LoggedOut(s)
  {
  }

  // ---------------------------------------------------------------------------
  // Runs: any sequence of operations from the initial state

  datatype Event =
    | VerifyEvent(me: Reply<UserRecord>)
    | LoginEvent(login: Reply<LoginReply>)
    | LogoutEvent
    | RefreshEvent(refresh: Reply<string>)

  function Step(s: Session, e: Event): Session
  {
    match e
    case VerifyEvent(r) => Verified(s, r)
    case LoginEvent(r) => LoggedIn(s, r)
    case LogoutEvent => LoggedOut(s)
    case RefreshEvent(r) => Refreshed(s, r)
  }

  function Run(s: Session, events: seq<Event>): Session
    decreases |events|
  {
    if events == [] then s else Run(Step(s, events[0]), events[1..])
  }

  lemma StepConsistent(s: Session, e: Event)
    requires Consistent(s)
    ensures Consistent(Step(s, e))
  {
  }

  /** No sequence of operations signs a user in without a token, or leaves a token in
      memory that storage does not hold. */
  lemma {:induction false} RunConsistent(s: Session, events: seq<Event>)
    requires Consistent(s)
    ensures Consistent(Run(s, events))
    decreases |events|
  {
    if events != [] {
      StepConsistent(s, events[0]);
      RunConsistent(Step(s, events[0]), events[1..]);
    }
  }

  /** `loading` is still true exactly when it was true at the start and no
      verification has run: once false it never becomes true again. */
  lemma {:induction false} RunLoading(s: Session, events: seq<Event>)
    ensures Run(s, events).loading <==>
      s.loading && forall i :: 0 <= i < |events| ==> !events[i].VerifyEvent?
    decreases |events|
  {
    if events != [] {
      RunLoading(Step(s, events[0]), events[1..]);
      assert forall i :: 1 <= i < |events| ==> events[i] == events[1..][i - 1];
    }
  }

  lemma ReachableConsistent(stored: Option<string>, events: seq<Event>)
    ensures Consistent(Run(Initial(stored), events))
    ensures !Run(Initial(stored), events).loading <==>
      exists i :: 0 <= i < |events| && events[i].VerifyEvent?
  {
    RunConsistent(Initial(stored), events);
    RunLoading(Initial(stored), events);
  }

  // ---------------------------------------------------------------------------
  // The provider itself

  class AuthProvider {
    var user: Option<UserRecord>
    var token: Option<string>
    var loading: bool
    /** The `'token'` entry of local storage. */
    var storedToken: Option<string>
    /** The `'refreshToken'` entry of local storage; nothing here ever writes it. */
    const storedRefreshToken: Option<string>

    function State(): Session
      reads this
    {
      Session(user, token, loading, storedToken)
    }

    predicate Valid()
      reads this
    {
      Consistent(State())
    }

    constructor (stored: Option<string>, storedRefresh: Option<string>)
      ensures Valid()
      ensures State() == Initial(stored)
      ensures storedRefreshToken == storedRefresh
    {
      user := None;
      token := if Truthy(stored) then stored else None;
      loading := true;
      storedToken := stored;
      storedRefreshToken := storedRefresh;
    }

    /** The effect that runs on mount and whenever `token` changes. */
    method VerifyToken(reply: Reply<UserRecord>) returns (request: Option<Request>)
      requires Valid()
      modifies this
      ensures Valid()
      ensures request == VerifyRequest(old(State()))
      ensures State() == Verified(old(State()), reply)
    {
      request := None;
      if Truthy(token) {
        request := Some(Me(token.value));
        match reply
        case Ok(profile) =>
          user := Some(profile);
        case Fail(_) =>
          Logout();
      }
      loading := false;
    }

    method Login(username: string, password: string, reply: Reply<LoginReply>)
      returns (request: Request, result: LoginResult)
      requires Valid()
      modifies this
      ensures Valid()
      ensures request == LoginRequest(username, password, TokenLifetimeMins)
      ensures result == LoginOutcome(reply)
      ensures State() == LoggedIn(old(State()), reply)
    {
      request := LoginRequest(username, password, TokenLifetimeMins);
      match reply
      case Ok(data) =>
        storedToken := Some(data.token);
        token := Some(data.token);
        user := Some(data.profile);
        result := LoginResult(true, None);
      case Fail(m) =>
        result := LoginResult(false, Some(MessageOr(m, "Login failed")));
    }

    method Logout()
      requires Valid()
      modifies this
      ensures Valid()
      ensures State() == LoggedOut(old(State()))
    {
      storedToken := None;
      token := None;
      user := None;
    }

    /** Asks for a new token with the stored refresh token. On failure the session is
        ended and the same error is raised again, so `result` is the reply itself. */
    method RefreshToken(reply: Reply<string>) returns (request: Request, result: Reply<string>)
      requires Valid()
      modifies this
      ensures Valid()
      ensures request == RefreshRequest(storedRefreshToken, TokenLifetimeMins)
      ensures result == reply
      ensures State() == Refreshed(old(State()), reply)
    {
      request := RefreshRequest(storedRefreshToken, TokenLifetimeMins);
      result := reply;
      match reply
      case Ok(t) =>
        storedToken := Some(t);
        token := Some(t);
      case Fail(_) =>
        Logout();
    }
  }
}
