/** The browser session of the single-page client
    (frontend/src/contexts/AuthContext.jsx): the token kept in memory and in
    local storage, the signed-in user, the `loading` flag that holds back the
    pages, and the `Authorization` header every request carries. Each
    operation is one step that takes the server's answer as a parameter. */
module AuthSession {
  import opened Common

  /** A JSON object as the server sends it; the session never looks inside. */
  datatype Profile = Profile(fields: map<string, Json>)

  /** The server's answer to a request: its payload, or the error thrown. */
  datatype Outcome<T> = Succeeded(value: T) | Failed(error: string)

  /** The body of a successful login or registration. */
  datatype AuthReply = AuthReply(token: string, user: Profile)

  /** The whole client-side state at one moment. */
  datatype SessionState = SessionState(token: Option<string>, currentUser: Option<Profile>, loading: bool,
                                       stored: Option<string>, header: Option<string>)

  /** Lines 23-27: `Bearer <token>` while the token is truthy, no header
      otherwise. */
  function HeaderFor(token: Option<string>): (r: Option<string>)
    ensures r.Some? <==> Present(token)
    ensures r.Some? ==> StartsWith(r.value, "Bearer ") && r.value[|"Bearer "|..] == token.value
  {
    if Present(token) then Some("Bearer " + token.value) else None
  }

  /** What holds between operations: the header mirrors the token, the
      stored token and the one in memory agree whenever either is set, and
      once loading is over there is no token without a user. */
  predicate Consistent(s: SessionState)
  {
    && s.header == HeaderFor(s.token)
    && (Present(s.token) || Present(s.stored) ==> s.stored == s.token)
    && (!s.loading && Present(s.token) ==> s.currentUser.Some?)
  }

  /** Line 113: the pages render only once loading is over. */
  predicate ChildrenShown(s: SessionState)
  {
    !s.loading
  }

  // ------------------------------------------------------------ transitions

  /** Lines 15-28 on mount: the stored token if it is truthy, no user,
      loading, and the header synchronised. */
  function Mounted(stored: Option<string>): (r: SessionState)
    ensures Consistent(r) && r.loading && r.currentUser.None? && r.stored == stored
    ensures Present(r.token) <==> Present(stored)
  {
    var token := if Present(stored) then stored else None;
    SessionState(token, None, true, stored, HeaderFor(token))
  }

  /** Lines 78-88: whatever the server answers, the stored token, the token
      and the user are cleared and the header goes with the token. */
  function AfterLogout(s: SessionState): (r: SessionState)
    ensures r.token.None? && r.stored.None? && r.currentUser.None? && r.header.None?
    ensures r.loading == s.loading
  {
    s.(stored := None, token := None, currentUser := None, header := HeaderFor(None))
  }

  /** Lines 30-44: with a token the user is fetched, and a failure logs out;
      without one nothing is requested. Loading ends either way. */
  function AfterBootstrap(s: SessionState, fetched: Outcome<Profile>): (r: SessionState)
    ensures !r.loading
    ensures !Present(s.token) ==> r == s.(loading := false)
    ensures Present(s.token) && fetched.Succeeded? ==> r == s.(currentUser := Some(fetched.value), loading := false)
    ensures Present(s.token) && fetched.Failed? ==> r == AfterLogout(s).(loading := false)
  {
    var t := if !Present(s.token) then s
             else match fetched
               case Succeeded(user) => s.(currentUser := Some(user))
               case Failed(_) => AfterLogout(s);
    t.(loading := false)
  }

  /** Lines 47-60: log out first, then store the new token and user on
      success; a failure leaves the session logged out. */
  function AfterLogin(s: SessionState, reply: Outcome<AuthReply>): (r: SessionState)
    ensures reply.Failed? ==> r == AfterLogout(s)
    ensures reply.Succeeded? ==> && r.token == Some(reply.value.token) && r.stored == Some(reply.value.token)
                                 && r.currentUser == Some(reply.value.user)
                                 && r.header == HeaderFor(Some(reply.value.token)) && r.loading == s.loading
  {
    var cleared := AfterLogout(s);
    match reply
    case Failed(_) => cleared
    case Succeeded(a) => cleared.(stored := Some(a.token), token := Some(a.token), currentUser := Some(a.user),
                                  header := HeaderFor(Some(a.token)))
  }

  /** Lines 63-76: on success the same as a login; a failure changes
      nothing. */
  function AfterRegister(s: SessionState, reply: Outcome<AuthReply>): (r: SessionState)
    ensures reply.Failed? ==> r == s
    ensures reply.Succeeded? ==> r == AfterLogin(s, reply)
  {
    match reply
    case Failed(_) => s
    case Succeeded(a) => s.(stored := Some(a.token), token := Some(a.token), currentUser := Some(a.user),
                            header := HeaderFor(Some(a.token)))
  }

  /** Lines 90-99: the returned user replaces the current one wholesale; a
      failure changes nothing. */
  function AfterUpdateProfile(s: SessionState, reply: Outcome<Profile>): (r: SessionState)
    ensures reply.Failed? ==> r == s
    ensures reply.Succeeded? ==> r == s.(currentUser := Some(reply.value))
  {
    match reply
    case Failed(_) => s
    case Succeeded(user) => s.(currentUser := Some(user))
  }

  // ---------------------------------------------------------------- lemmas

  /** Every operation keeps the session consistent. */
  lemma OperationsKeepConsistent(s: SessionState, fetched: Outcome<Profile>, reply: Outcome<AuthReply>,
                                 updated: Outcome<Profile>)
    requires Consistent(s)
    ensures Consistent(AfterBootstrap(s, fetched))
    ensures Consistent(AfterLogout(s))
    ensures Consistent(AfterLogin(s, reply))
    ensures Consistent(AfterRegister(s, reply))
    ensures Consistent(AfterUpdateProfile(s, updated))
  {
  }

  /** Logging out twice leaves the state logging out once does. */
  lemma LogoutIdempotent(s: SessionState)
    ensures AfterLogout(AfterLogout(s)) == AfterLogout(s)
  {
  }

  /** A failed login leaves no token, stored or in memory, and no user,
      whoever was signed in before. */
  lemma FailedLoginClears(s: SessionState, error: string)
    ensures var r := AfterLogin(s, Failed(error));
            r.token.None? && r.stored.None? && r.currentUser.None? && r.header.None?
  {
  }

  /** A login's result does not depend on who was signed in before. */
  lemma LoginForgetsPreviousUser(s: SessionState, t: SessionState, reply: Outcome<AuthReply>)
    requires s.loading == t.loading
    ensures AfterLogin(s, reply) == AfterLogin(t, reply)
  {
  }

  /** Once the pages are shown they stay shown. */
  lemma LoadingNeverReturns(s: SessionState, fetched: Outcome<Profile>, reply: Outcome<AuthReply>,
                            updated: Outcome<Profile>)
    requires ChildrenShown(s)
    ensures ChildrenShown(AfterBootstrap(s, fetched)) && ChildrenShown(AfterLogout(s))
    ensures ChildrenShown(AfterLogin(s, reply)) && ChildrenShown(AfterRegister(s, reply))
    ensures ChildrenShown(AfterUpdateProfile(s, updated))
  {
  }

  /** A session mounted without a stored token requests nothing and shows
      the pages signed out. */
  lemma MountWithoutToken(stored: Option<string>, fetched: Outcome<Profile>)
    requires !Present(stored)
    ensures var r := AfterBootstrap(Mounted(stored), fetched);
            ChildrenShown(r) && r.currentUser.None? && r.header.None?
  {
  }

  // ---------------------------------------------------------------- the class

  /** The provider's state slots, the storage entry and the header, updated
      in place by each operation. */
  class Session {
    var token: Option<string>
    var currentUser: Option<Profile>
    var loading: bool
    var stored: Option<string>
    var header: Option<string>

    function Snapshot(): SessionState
      reads this
    {
      SessionState(token, currentUser, loading, stored, header)
    }

    /** Mounting the provider over the storage entry `storedToken`. */
    constructor(storedToken: Option<string>)
      ensures Snapshot() == Mounted(storedToken)
    {
      stored := storedToken;
      token := if Present(storedToken) then storedToken else None;
      currentUser := None;
      loading := true;
      new;
      SyncHeader();
    }

    /** The effect of lines 22-28, run whenever the token changes. */
    method SyncHeader()
      modifies this`header
      ensures header == HeaderFor(token)
    {
      if Present(token) {
        header := Some("Bearer " + token.value);
      } else {
        header := None;
      }
    }

    method Bootstrap(fetched: Outcome<Profile>)
      modifies this
      ensures Snapshot() == AfterBootstrap(old(Snapshot()), fetched)
    {
      if Present(token) {
        match fetched
        case Succeeded(user) =>
          currentUser := Some(user);
        case Failed(_) =>
          Logout();
      }
      loading := false;
    }

    method Logout()
      modifies this
      ensures Snapshot() == AfterLogout(old(Snapshot()))
    {
      stored := None;
      token := None;
      currentUser := None;
      SyncHeader();
    }

    /** Returns the signed-in user, or rethrows the server's error. */
    method Login(reply: Outcome<AuthReply>) returns (r: Outcome<Profile>)
      modifies this
      ensures Snapshot() == AfterLogin(old(Snapshot()), reply)
      ensures reply.Succeeded? ==> r == Succeeded(reply.value.user)
      ensures reply.Failed? ==> r == Failed(reply.error)
    {
      Logout();
      match reply
      case Failed(e) =>
        r := Failed(e);
      case Succeeded(a) =>
        stored := Some(a.token);
        token := Some(a.token);
        currentUser := Some(a.user);
        SyncHeader();
        r := Succeeded(a.user);
    }

    method Register(reply: Outcome<AuthReply>) returns (r: Outcome<Profile>)
      modifies this
      ensures Snapshot() == AfterRegister(old(Snapshot()), reply)
      ensures reply.Succeeded? ==> r == Succeeded(reply.value.user)
      ensures reply.Failed? ==> r == Failed(reply.error)
    {
      match reply
      case Failed(e) =>
        r := Failed(e);
      case Succeeded(a) =>
        stored := Some(a.token);
        token := Some(a.token);
        currentUser := Some(a.user);
        SyncHeader();
        r := Succeeded(a.user);
    }

    method UpdateProfile(reply: Outcome<Profile>) returns (r: Outcome<Profile>)
      modifies this
      ensures Snapshot() == AfterUpdateProfile(old(Snapshot()), reply)
      ensures r == reply
    {
      match reply
      case Failed(e) =>
        r := Failed(e);
      case Succeeded(user) =>
        currentUser := Some(user);
        r := Succeeded(user);
    }
  }
}
