/** The authorization guard and the null-on-error adapter shared by the handlers. */
module Functions {
  import opened Wrappers

  const ADMIN_ROLE := "admin"

  /** The `user` of a session; `role` is missing when the provider sets none. */
  datatype SessionUser = SessionUser(role: Option<string>)

  /** A session from the authentication provider; its `user` may be missing. */
  datatype Session = Session(user: Option<SessionUser>)

  /** What a route demands of its caller. */
  datatype Policy = Authenticated | AdminOnly

  predicate IsAdmin(s: Session)
  {
    s.user.Some? && s.user.value.role == Some(ADMIN_ROLE)
  }

  /** The policy an endpoint states, independently of the guard's code. */
  predicate Permits(policy: Policy, auth: Option<Session>)
  {
    match policy
    case Authenticated => auth.Some?
    case AdminOnly => auth.Some? && IsAdmin(auth.value)
  }

  /**
   * `isNotLoggedIn(auth, isAdmin = false)`: true ("access denied") with no
   * session; for a session, false unless the admin check is asked for, and then
   * true exactly when the session's user is not an admin (no user: denied).
   */
  function IsNotLoggedIn(auth: Option<Session>, isAdmin: bool := false): (denied: bool)
    ensures denied <==> !Permits(if isAdmin then AdminOnly else Authenticated, auth)
    ensures auth.None? ==> denied
    ensures auth.Some? && !isAdmin ==> !denied
    ensures auth.Some? && auth.value.user.None? && isAdmin ==> denied
  {
    if isAdmin then
      if auth.Some? then
        !(auth.value.user.Some? && auth.value.user.value.role == Some("admin"))
      else true
    else if auth.Some? then false
    else true
  }

  /** Whoever passes the admin check passes the plain one. */
  lemma AdminCheckIsStricter(auth: Option<Session>)
    ensures !IsNotLoggedIn(auth, true) ==> !IsNotLoggedIn(auth, false)
    ensures IsNotLoggedIn(auth) == IsNotLoggedIn(auth, false)
  {
  }

  /**
   * `nullIfError(func)(...args)`: the call's value when it returns, `null` when
   * it throws; it never throws itself.
   */
  function NullIfError<A, T>(func: A -> Result<T>, args: A): (r: Option<T>)
    ensures r.Some? <==> func(args).Ok?
    ensures r.Some? ==> r.value == func(args).value
  {
    match func(args)
    case Ok(v) => Some(v)
    case Err(_) => None
  }

  /** The adapter forgets why a call failed: any two thrown errors give the same `null`. */
  lemma NullIfErrorForgetsTheCause<A, T>(f: A -> Result<T>, g: A -> Result<T>, args: A)
    requires f(args).Err? && g(args).Err?
    ensures NullIfError(f, args) == NullIfError(g, args) == None
  {
  }
}
