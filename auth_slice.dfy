/**
  The authentication store: five fields changed in place by three setters and by the
  pending, fulfilled and rejected events of the `checkSession`, `signIn`, `signUp` and
  `signOut` actions. `Reduce` is the transition function; `AuthStore.Dispatch` applies it
  field by field, as the reducers do on their draft state.
 */
module AuthSlice {
  import opened Wrappers

  /** The parts of an authentication-service user the application reads. */
  datatype User = User(id: string, email: Option<string>, fullName: Option<string>)

  /** A session always carries its user. */
  datatype Session = Session(accessToken: string, user: User)

  datatype AuthState = AuthState(
    session: Option<Session>,
    user: Option<User>,
    loading: bool,
    isAuthenticated: bool,
    error: Option<string>)

  /** No session, no user, not loading, not authenticated, no error. */
  const InitialState := AuthState(None, None, false, false, None)

  /**
    Every action the store handles. A rejected `signIn` or `signUp` carries the rejection's
    payload, which is absent unless the action rejected with a value. `signOut` has no
    pending or rejected case in the store; those two actions change nothing.
   */
  datatype AuthAction =
    | SetUser(newUser: Option<User>)
    | SetLoading(value: bool)
    | SetError(message: Option<string>)
    | CheckSessionPending
    | CheckSessionFulfilled(payload: Option<Session>)
    | CheckSessionRejected
    | SignInPending
    | SignInFulfilled(payload: Option<Session>)
    | SignInRejected(message: Option<string>)
    | SignUpPending
    | SignUpFulfilled(payload: Option<Session>)
    | SignUpRejected(message: Option<string>)
    | SignOutPending
    | SignOutFulfilled
    | SignOutRejected

  /** `payload?.user || null` */
  function UserOf(payload: Option<Session>): (r: Option<User>)
    ensures r.Some? <==> payload.Some?
    ensures payload.Some? ==> r.value == payload.value.user
  {
    match payload
    case None => None
    case Some(s) => Some(s.user)
  }

  /**
    The state the store holds after handling `a` in state `s`. Each group of events writes
    only its own fields: the identity (session, user, flag) changes only through the
    setter of the user and the fulfilled and rejected session events, `loading` only
    through its setter and the pending, fulfilled and rejected sign-in, sign-up and
    session events, and `error` only through `WritesError` events.
   */
  function Reduce(s: AuthState, a: AuthAction): (r: AuthState)
    ensures r.session != s.session || r.isAuthenticated != s.isAuthenticated ==> WritesIdentity(a) && !a.SetUser?
    ensures r.user != s.user ==> WritesIdentity(a)
    ensures r.loading != s.loading ==> WritesLoading(a)
    ensures r.error != s.error ==> WritesError(a)
  {
    match a
    case SetUser(u) => s.(user := u)
    case SetLoading(b) => s.(loading := b)
    case SetError(m) => s.(error := m)
    case CheckSessionPending => s.(loading := true)
    case CheckSessionFulfilled(p) =>
      s.(session := p, user := UserOf(p), isAuthenticated := p.Some?, loading := false)
    case CheckSessionRejected =>
      s.(session := None, user := None, isAuthenticated := false, loading := false)
    case SignInPending => s.(loading := true)
    case SignInFulfilled(p) =>
      s.(session := p, user := UserOf(p), isAuthenticated := true, loading := false)
    case SignInRejected(m) => s.(loading := false, error := m)
    case SignUpPending => s.(loading := true)
    case SignUpFulfilled(p) =>
      s.(session := p, user := UserOf(p), isAuthenticated := p.Some?, loading := false)
    case SignUpRejected(m) => s.(loading := false, error := m)
    case SignOutPending => s
    case SignOutFulfilled => s.(session := None, user := None, isAuthenticated := false)
    case SignOutRejected => s
  }

  /** The events that assign the user, and those that also assign session and flag. */
  predicate WritesIdentity(a: AuthAction) {
    a.SetUser? || a.CheckSessionFulfilled? || a.CheckSessionRejected? || a.SignInFulfilled?
    || a.SignUpFulfilled? || a.SignOutFulfilled?
  }

  /** The events that assign `loading`. */
  predicate WritesLoading(a: AuthAction) {
    a.SetLoading? || IsPending(a) || a.CheckSessionFulfilled? || a.CheckSessionRejected?
    || a.SignInFulfilled? || a.SignInRejected? || a.SignUpFulfilled? || a.SignUpRejected?
  }

  /** The state after handling each action of `actions` in turn. */
  function ReduceAll(s: AuthState, actions: seq<AuthAction>): AuthState
    decreases |actions|
  {
    if actions == [] then s else ReduceAll(Reduce(s, actions[0]), actions[1..])
  }

  class AuthStore {
    var session: Option<Session>
    var user: Option<User>
    var loading: bool
    var isAuthenticated: bool
    var error: Option<string>

    function State(): AuthState
      reads this
    {
      AuthState(session, user, loading, isAuthenticated, error)
    }

    constructor ()
      ensures session == None && user == None && !loading && !isAuthenticated && error == None
      ensures State() == InitialState
    {
      session := None;
      user := None;
      loading := false;
      isAuthenticated := false;
      error := None;
    }

    /** Handles one action by assigning the fields its case assigns and no others. */
    method Dispatch(a: AuthAction)
      modifies this
      ensures State() == Reduce(old(State()), a)
    {
      match a {
        case SetUser(u) =>
          user := u;
        case SetLoading(b) =>
          loading := b;
        case SetError(m) =>
          error := m;
        case CheckSessionPending =>
          loading := true;
        case CheckSessionFulfilled(p) =>
          session := p;
          user := UserOf(p);
          isAuthenticated := p.Some?;
          loading := false;
        case CheckSessionRejected =>
          session := None;
          user := None;
          isAuthenticated := false;
          loading := false;
        case SignInPending =>
          loading := true;
        case SignInFulfilled(p) =>
          session := p;
          user := UserOf(p);
          isAuthenticated := true;
          loading := false;
        case SignInRejected(m) =>
          loading := false;
          error := m;
        case SignUpPending =>
          loading := true;
        case SignUpFulfilled(p) =>
          session := p;
          user := UserOf(p);
          isAuthenticated := p.Some?;
          loading := false;
        case SignUpRejected(m) =>
          loading := false;
          error := m;
        case SignOutPending =>
        case SignOutFulfilled =>
          session := None;
          user := None;
          isAuthenticated := false;
        case SignOutRejected =>
      }
    }
  }

  // ---------------------------------------------------------------- one event

  predicate IsPending(a: AuthAction) {
    a.CheckSessionPending? || a.SignInPending? || a.SignUpPending?
  }

  /** Every handled pending event sets `loading` and changes nothing else. */
  lemma PendingSetsOnlyLoading(s: AuthState, a: AuthAction)
    requires IsPending(a)
    ensures Reduce(s, a) == s.(loading := true)
  {
  }

  /**
    A fulfilled `checkSession` or `signUp` authenticates exactly when a session came back,
    takes the user from it, stops loading and keeps the error.
   */
  lemma SessionFulfilled(s: AuthState, a: AuthAction)
    requires a.CheckSessionFulfilled? || a.SignUpFulfilled?
    ensures var r := Reduce(s, a);
      && (r.isAuthenticated <==> a.payload.Some?)
      && r.session == a.payload
      && r.user == (if a.payload.Some? then Some(a.payload.value.user) else None)
      && !r.loading && r.error == s.error
  {
  }

  /** A fulfilled `signIn` authenticates even when no session came back. */
  lemma SignInFulfilledAlwaysAuthenticates(s: AuthState, p: Option<Session>)
    ensures var r := Reduce(s, SignInFulfilled(p));
      r.isAuthenticated && r.session == p && r.user == UserOf(p) && !r.loading && r.error == s.error
  {
  }

  /** A rejected `checkSession` signs out and stops loading, keeping the error. */
  lemma CheckSessionRejectedSignsOut(s: AuthState)
    ensures Reduce(s, CheckSessionRejected) == AuthState(None, None, false, false, s.error)
  {
  }

  /** A rejected `signIn` or `signUp` records its payload and stops loading; the identity is kept. */
  lemma SignInUpRejectedKeepsIdentity(s: AuthState, a: AuthAction)
    requires a.SignInRejected? || a.SignUpRejected?
    ensures Reduce(s, a) == s.(loading := false, error := a.message)
  {
  }

  /** A fulfilled `signOut` clears the identity and keeps `loading` and `error`. */
  lemma SignOutClearsIdentity(s: AuthState)
    ensures Reduce(s, SignOutFulfilled) == AuthState(None, None, s.loading, false, s.error)
  {
  }

  predicate WritesError(a: AuthAction) {
    a.SetError? || a.SignInRejected? || a.SignUpRejected?
  }

  /** Only `setError` and the two rejected sign-in and sign-up events write `error`; no fulfilled event clears it. */
  lemma ErrorWrittenOnlyByErrorActions(s: AuthState, a: AuthAction)
    ensures !WritesError(a) ==> Reduce(s, a).error == s.error
    ensures WritesError(a) ==> Reduce(s, a).error == a.message
  {
  }

  /** Along any run without those three actions the error message survives. */
  lemma {:induction false} ErrorSurvivesRun(s: AuthState, actions: seq<AuthAction>)
    requires forall i :: 0 <= i < |actions| ==> !WritesError(actions[i])
    ensures ReduceAll(s, actions).error == s.error
    decreases |actions|
  {
    if actions != [] {
      ErrorWrittenOnlyByErrorActions(s, actions[0]);
      ErrorSurvivesRun(Reduce(s, actions[0]), actions[1..]);
    }
  }

  // ---------------------------------------------------------------- the consistency invariant

  /** Authenticated exactly when a session is held, and the user is the session's user. */
  ghost predicate Consistent(s: AuthState) {
    && (s.isAuthenticated <==> s.session.Some?)
    && s.user == UserOf(s.session)
  }

  /** The two transitions that can make a consistent state inconsistent. */
  predicate BreaksConsistency(a: AuthAction) {
    a.SetUser? || (a.SignInFulfilled? && a.payload.None?)
  }

  lemma InitialStateConsistent()
    ensures Consistent(InitialState)
  {
  }

  /** Every other transition keeps the state consistent. */
  lemma ConsistencyPreserved(s: AuthState, a: AuthAction)
    requires Consistent(s) && !BreaksConsistency(a)
    ensures Consistent(Reduce(s, a))
  {
  }

  /** Any run from a consistent state (the initial one, say) that avoids those two transitions ends consistent. */
  lemma {:induction false} ConsistentAlongRun(s: AuthState, actions: seq<AuthAction>)
    requires Consistent(s)
    requires forall i :: 0 <= i < |actions| ==> !BreaksConsistency(actions[i])
    ensures Consistent(ReduceAll(s, actions))
    decreases |actions|
  {
    if actions != [] {
      ConsistencyPreserved(s, actions[0]);
      ConsistentAlongRun(Reduce(s, actions[0]), actions[1..]);
    }
  }

  /** A `signIn` fulfilled without a session leaves the store authenticated with no session and no user. */
  lemma SignInWithoutSessionIsInconsistent()
    ensures var r := Reduce(InitialState, SignInFulfilled(None));
      r.isAuthenticated && r.session.None? && r.user.None? && !Consistent(r)
  {
  }
}
