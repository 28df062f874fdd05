/**
 * The auth provider as an event-driven state machine. Each event is one
 * synchronous stretch of the provider's callbacks between two `await`s:
 * the session check resuming, the role lookup returning, the auth-change
 * listener firing, the safety timer, sign-out completing, and unmount.
 * Events may arrive in any order, so whatever is proved over every event
 * sequence holds for every interleaving the callbacks can produce.
 */
module AuthContext {
  import opened Wrappers

  /** The signed-in identity; only its id is used here. */
  datatype User = User(id: string)

  /**
   * The provider's state. `role` is the raw profile value: the source casts
   * it to `'admin' | 'user'` without checking, so any string can appear.
   * `mounted` is the effect's local flag.
   */
  datatype AuthState = AuthState(user: Option<User>, role: Option<string>, loading: bool, mounted: bool)

  /** What the `profiles` lookup in `fetchRole` produced. */
  datatype RoleLookup =
    | Threw                    // the lookup threw; the caller's `.catch` swallows it
    | NoRow                    // `data` is null: no profile row, or the query reported an error
    | Row(role: Option<string>) // a profile row; its `role` column may be null

  datatype Event =
    | SessionFound(user: User)             // the session check resumed with a signed-in user
    | SessionEmpty                         // the session check resumed without one
    | SessionFailed                        // the session check threw
    | SessionRoleFetched(lookup: RoleLookup) // the role lookup started by the session check returned
    | AuthChanged(session: Option<User>)   // the auth-change listener fired
    | AuthRoleFetched(lookup: RoleLookup)  // the role lookup started by the listener returned
    | SafetyTimeout                        // the 3-second fallback timer fired
    | SignedOut                            // `signOut` resumed after the remote sign-out
    | Unmounted                            // the effect's cleanup ran

  /** The state on first render after the effect ran: without a client, loading stops at once. */
  function Init(client: bool): (s: AuthState)
    ensures s.user.None? && s.role.None? && s.mounted
    ensures s.loading <==> client
  {
    AuthState(None, None, client, true)
  }

  /** The role `fetchRole` leaves behind: unchanged on a throw, `'user'` when no row came back. */
  function RoleAfter(current: Option<string>, lookup: RoleLookup): (r: Option<string>)
    ensures lookup.Threw? ==> r == current
    ensures lookup.NoRow? ==> r == Some("user")
    ensures lookup.Row? ==> r == lookup.role
  {
    match lookup
    case Threw => current
    case NoRow => Some("user")
    case Row(role) => role
  }

  /**
   * One event. Without a client the effect returned before subscribing and
   * `signOut` returns at once, so nothing ever changes.
   */
  function Step(client: bool, s: AuthState, e: Event): AuthState {
    if !client then s
    else
      match e
      case SessionFound(u) =>
        if s.mounted then s.(user := Some(u)) else s
      case SessionEmpty =>
        if s.mounted then s.(loading := false) else s
      case SessionFailed =>
        if s.mounted then s.(user := None, role := None, loading := false) else s
      case SessionRoleFetched(lookup) =>
        // `fetchRole` sets the role unguarded; the `finally` then checks `mounted`
        var s1 := s.(role := RoleAfter(s.role, lookup));
        if s1.mounted then s1.(loading := false) else s1
      case AuthChanged(session) =>
        if !s.mounted then s
        else if session.Some? then s.(user := session)
        else s.(user := None, role := None, loading := false)
      case AuthRoleFetched(lookup) =>
        // after the role lookup the listener stops loading without re-checking `mounted`
        s.(role := RoleAfter(s.role, lookup), loading := false)
      case SafetyTimeout =>
        // the timer reads `loading` from the first render, where it is always true
        if s.mounted then s.(loading := false) else s
      case SignedOut =>
        s.(user := None, role := None)
      case Unmounted =>
        s.(mounted := false)
  }

  /** What `signIn` returns: the error, if any, next to the provider state. */
  datatype SignInOutcome = SignInOutcome(state: AuthState, error: Option<string>)

  /**
   * `signIn` asks the provider for a magic link and reports its error. It
   * never touches the provider state; a successful sign-in shows up later as
   * an auth-change event. Without a client it fails at once.
   */
  function SignIn(client: bool, s: AuthState, providerError: Option<string>): (o: SignInOutcome)
    ensures o.state == s
    ensures !client ==> o.error == Some("Supabase not initialized")
    ensures client ==> o.error == providerError
  {
    if !client then SignInOutcome(s, Some("Supabase not initialized"))
    else SignInOutcome(s, providerError)
  }

  /** The state after a sequence of events. */
  function Run(client: bool, s: AuthState, events: seq<Event>): AuthState
    decreases |events|
  {
    if events == [] then s else Run(client, Step(client, s, events[0]), events[1..])
  }

  /**
   * A role lookup that finds no row yields `'user'`; the role is `'admin'`
   * exactly when a row says so, or when it already was and the lookup threw.
   */
  lemma RoleDefaultIsUser(current: Option<string>, lookup: RoleLookup)
    ensures RoleAfter(current, NoRow) == Some("user")
    ensures RoleAfter(current, lookup) == Some("admin") <==>
      (current == Some("admin") && lookup.Threw?) || lookup == Row(Some("admin"))
  {
  }

  /** An auth change without a session, while mounted, clears user and role and ends loading. */
  lemma AuthChangeWithoutSession(s: AuthState)
    requires s.mounted
    ensures var t := Step(true, s, AuthChanged(None));
      t.user.None? && t.role.None? && !t.loading && t.mounted
  {
  }

  /** The role lookup that completes an auth change always ends loading, whatever it found. */
  lemma AuthChangeSettles(s: AuthState, lookup: RoleLookup)
    ensures !Step(true, s, AuthRoleFetched(lookup)).loading
  {
  }

  /** A failed session check while mounted clears user and role and ends loading. */
  lemma SessionFailureClears(s: AuthState)
    requires s.mounted
    ensures var t := Step(true, s, SessionFailed);
      t.user.None? && t.role.None? && !t.loading
  {
  }

  /** A role lookup that throws keeps the user and the role as they were. */
  lemma FailedRoleFetchKeepsSession(s: AuthState)
    ensures Step(true, s, SessionRoleFetched(Threw)).user == s.user
    ensures Step(true, s, SessionRoleFetched(Threw)).role == s.role
    ensures Step(true, s, AuthRoleFetched(Threw)).user == s.user
    ensures Step(true, s, AuthRoleFetched(Threw)).role == s.role
  {
  }

  /** Once unmounted, auth-change events change nothing. */
  lemma UnmountedIgnoresAuthChanges(client: bool, s: AuthState, session: Option<User>)
    requires !s.mounted
    ensures Step(client, s, AuthChanged(session)) == s
  {
  }

  /** The safety timer ends loading while mounted and leaves user and role alone. */
  lemma SafetyTimeoutEndsLoading(s: AuthState)
    ensures var t := Step(true, s, SafetyTimeout);
      t.user == s.user && t.role == s.role && t.mounted == s.mounted
      && (s.mounted ==> !t.loading) && (!s.mounted ==> t == s)
  {
  }

  /** After sign-out completes with a client, there is neither a user nor a role. */
  lemma SignOutClears(s: AuthState)
    ensures var t := Step(true, s, SignedOut);
      t.user.None? && t.role.None? && t.loading == s.loading && t.mounted == s.mounted
  {
  }

  /** Without a client, no sequence of events moves the state away from its start. */
  lemma {:induction false} NoClientStaysSignedOut(events: seq<Event>)
    ensures Run(false, Init(false), events) == Init(false)
    ensures !Run(false, Init(false), events).loading && Run(false, Init(false), events).user.None?
    decreases |events|
  {
    if events != [] {
      NoClientStaysSignedOut(events[1..]);
    }
  }

  /** Once unmounted, the provider stays unmounted. */
  lemma {:induction false} UnmountIsFinal(client: bool, s: AuthState, events: seq<Event>)
    requires !s.mounted
    ensures !Run(client, s, events).mounted
    decreases |events|
  {
    if events != [] {
      UnmountIsFinal(client, Step(client, s, events[0]), events[1..]);
    }
  }

  /** Loading only ever goes from true to false. */
  lemma {:induction false} LoadingNeverRestarts(client: bool, s: AuthState, events: seq<Event>)
    requires !s.loading
    ensures !Run(client, s, events).loading
    decreases |events|
  {
    if events != [] {
      LoadingNeverRestarts(client, Step(client, s, events[0]), events[1..]);
    }
  }

  /** Some event hands over a profile row whose role is `role`. */
  predicate ProfileSays(events: seq<Event>, role: string) {
    exists i :: 0 <= i < |events| && RowOf(events[i]) == Some(role)
  }

  /** The role carried by a profile row in a role-lookup event, if any. */
  function RowOf(e: Event): Option<string> {
    match e
    case SessionRoleFetched(Row(Some(r))) => Some(r)
    case AuthRoleFetched(Row(Some(r))) => Some(r)
    case _ => None
  }

  /**
   * Every role the provider ends up holding is the one it started with, the
   * `'user'` default, null, or a value some profile row supplied.
   */
  lemma {:induction false} RoleOrigin(client: bool, s: AuthState, events: seq<Event>)
    ensures var r := Run(client, s, events).role;
      r.None? || r == Some("user") || r == s.role || ProfileSays(events, r.value)
    decreases |events|
  {
    if events != [] {
      var t := Step(client, s, events[0]);
      var r := Run(client, s, events).role;
      RoleOrigin(client, t, events[1..]);
      if r.Some? && r != Some("user") && r != s.role {
        if r == t.role {
          assert RowOf(events[0]) == r;
        } else {
          var i :| 0 <= i < |events[1..]| && RowOf(events[1..][i]) == Some(r.value);
          assert RowOf(events[i + 1]) == Some(r.value);
        }
      }
    }
  }

  /**
   * From the initial state, the provider holds a role other than `'user'`
   * only if a profile row supplied it: the default never grants `'admin'`.
   */
  lemma RoleComesFromProfile(client: bool, events: seq<Event>)
    ensures var r := Run(client, Init(client), events).role;
      r.None? || r == Some("user") || ProfileSays(events, r.value)
  {
    RoleOrigin(client, Init(client), events);
  }
}
