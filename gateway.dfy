/**
 * The request-level part of the gateway: the `auth` middleware, passport's
 * `req.login`/`req.logout` as seen from it, and the `/current-user`,
 * `/login` and `/logout` route handlers.
 *
 * A handler either calls `next()`, calls `next(err)`, writes a response,
 * does none of these, or lets an exception escape its callback; a `Flow`
 * records which.
 */
module Gateway {
  import opened Wrappers
  import opened Principals
  import opened Sessions

  /** The JSON bodies the handlers write. */
  datatype Body =
    | Message(message: string)                          // {message}
    | ErrorText(error: string)                          // {error}
    | Profile(username: string, role: string)           // {username, role}
    | LoginBody(user: User, message: string, auth: string)
    | LogoutBody(message: string, auth: string)

  datatype Flow =
    | Next                              // next()
    | NextError(fault: Fault)           // next(err)
    | Respond(status: int, body: Body)  // res.status(status).json(body)
    | Silent                            // neither a response nor next
    | Thrown(error: string)             // an exception escapes the store callback

  /** What `passport.authenticate(['local', 'basic', 'digest'], cb)` calls `cb` with. */
  datatype Authn = AuthnError(fault: Fault) | NoUser | AuthnUser(user: User)

  /** The fields of a request the gateway reads and writes. */
  datatype State = State(user: Option<User>, session: Session)

  /** A handler's flow together with the request state it leaves behind. */
  datatype Step = Step(flow: Flow, after: State)

  /** `req.body` of a POST to `/login`; a missing field is `None`. */
  datatype Credentials = Credentials(username: Option<string>, password: Option<string>)

  const Forbidden := Respond(403, Message("access forbidden"))
  const WrongCredentials := Fault("Wrong username or password.", Some(401))

  /** The session already bound a user, and that user's username is not empty. */
  predicate HasPrincipal(s: State) {
    s.user.Some? && s.user.value.username != ""
  }

  /** Both posted fields are present and non-empty (JavaScript truthiness of strings). */
  predicate Filled(c: Credentials) {
    c.username.Some? && c.username.value != "" && c.password.Some? && c.password.value != ""
  }

  /** The state after a successful `req.login(u)`: `u` is bound and the session keeps its serialized id. */
  function LoggedIn(s: State, u: User): (t: State)
    ensures HasPrincipal(t) <==> u.username != ""
    ensures t.user == Some(u) && t.session.principal == Some(u.id)
    ensures t.session.userId == s.session.userId
  {
    State(Some(u), s.session.(principal := Some(Serialize(u))))
  }

  /** The state after `req.logout()`: no user, and no principal left in the session. */
  function LoggedOut(s: State): (t: State)
    ensures !HasPrincipal(t) && t.user.None? && t.session.principal.None?
    ensures t.session.userId == s.session.userId
  {
    State(None, s.session.(principal := None))
  }

  /**
   * The `auth` middleware. `authn` is what the combined authenticate call
   * reported and `loginFailure` what `req.login` reported.
   */
  function AuthStep(s: State, authn: Authn, loginFailure: Option<Fault>): (r: Step)
    // an already authenticated request goes straight on, whatever the credentials
    ensures HasPrincipal(s) ==> r == Step(Next, s)
    // exactly one of next(), next(err) and a 403 happens; nothing else
    ensures r.flow.Next? || r.flow.NextError? || r.flow == Forbidden
    // an authentication error or a failed login goes to next(err)
    ensures r.flow.NextError? <==>
      !HasPrincipal(s) && (authn.AuthnError? || (authn.AuthnUser? && loginFailure.Some?))
    ensures r.flow.NextError? ==> r.flow.fault == (if authn.AuthnError? then authn.fault else loginFailure.value)
    // next(err) leaves the request alone on an authentication error; a failed login has cleared `req.user`
    ensures r.flow.NextError? ==> r.after == (if authn.AuthnError? then s else s.(user := None))
    // no user: 403, next is not called and nothing is bound
    ensures r.flow == Forbidden <==> !HasPrincipal(s) && authn.NoUser?
    ensures r.flow == Forbidden ==> r.after == s
    // next() is reached only with a bound user: the session's, or the one just logged in
    ensures r.flow.Next? ==> r.after.user.Some?
    ensures r.flow.Next? && !HasPrincipal(s) ==>
      authn.AuthnUser? && loginFailure.None? && r.after == LoggedIn(s, authn.user)
  {
    if HasPrincipal(s) then Step(Next, s)
    else
      match authn
      case AuthnError(f) => Step(NextError(f), s)
      case NoUser => Step(Forbidden, s)
      case AuthnUser(u) =>
        if loginFailure.Some? then Step(NextError(loginFailure.value), s.(user := None))
        else Step(Next, LoggedIn(s, u))
  }

  /** The `/current-user` handler. */
  function CurrentUserResponse(user: Option<User>): (f: Flow)
    ensures f.Respond? && (f.status == 200 <==> user.Some?)
    ensures user.Some? ==> f.body == Profile(user.value.username, user.value.role)
    ensures user.None? ==> f == Respond(401, ErrorText("User not authenticated"))
  {
    if user.Some? then Respond(200, Profile(user.value.username, user.value.role))
    else Respond(401, ErrorText("User not authenticated"))
  }

  /**
   * The `/login` handler as written. `found` is what `findByUsername`
   * answered for the posted username; it is only consulted when both fields
   * are filled. Its guard joins "error or no user" to the password
   * comparison with a conjunction, so a found user without an error is never
   * refused, and a missing user has its `password` read, which throws.
   */
  function LoginStep(s: State, creds: Credentials, found: Lookup): (r: Step)
    // a missing field: no lookup, no response, nothing changes
    ensures !Filled(creds) ==> r == Step(Silent, s)
    // a 401 happens exactly when the store reported an error and a user whose password differs
    ensures r.flow.NextError? <==> Filled(creds) && found.err.Some? && found.user.Some?
                                   && found.user.value.password != creds.password.value
    ensures r.flow.NextError? ==> r.flow.fault == WrongCredentials && r.after == s
    // no user at all: the callback throws
    ensures r.flow.Thrown? <==> Filled(creds) && found.user.None?
    ensures r.flow.Thrown? ==> r.after == s
    // a found user without an error is accepted whatever password was posted
    ensures Filled(creds) && found.err.None? && found.user.Some? ==> r.flow.Respond?
    // a found user is never met with silence or an exception
    ensures Filled(creds) && found.user.Some? ==> r.flow.NextError? || r.flow.Respond?
    ensures r.flow.Respond? ==> found.user.Some? && r.flow == Respond(200, LoginBody(found.user.value, "Authenticated", "1"))
                                && r.after == s.(session := s.session.(userId := Some(found.user.value.id)))
    // `req.user` is never touched
    ensures r.after.user == s.user
  {
    if !Filled(creds) then Step(Silent, s)
    else if (found.err.Some? || found.user.None?) && found.user.None? then Step(Thrown("TypeError"), s)
    else if (found.err.Some? || found.user.None?) && found.user.value.password != creds.password.value then
      Step(NextError(WrongCredentials), s)
    else
      Step(Respond(200, LoginBody(found.user.value, "Authenticated", "1")),
           s.(session := s.session.(userId := Some(found.user.value.id))))
  }

  /**
   * The `/login` handler as evidently intended: an error, a missing user or
   * a different password each refuse with 401. It answers 200 exactly when the
   * store found the user without an error and the posted password is the
   * stored one, and never throws.
   */
  function IntendedLoginStep(s: State, creds: Credentials, found: Lookup): (r: Step)
    ensures !Filled(creds) ==> r == Step(Silent, s)
    ensures r.flow.Respond? <==> Filled(creds) && found.err.None? && found.user.Some?
                                 && found.user.value.password == creds.password.value
    ensures r.flow.Respond? ==> r.flow == Respond(200, LoginBody(found.user.value, "Authenticated", "1"))
                                && r.after == s.(session := s.session.(userId := Some(found.user.value.id)))
    ensures Filled(creds) && !r.flow.Respond? ==> r == Step(NextError(WrongCredentials), s)
    ensures !r.flow.Thrown?
  {
    if !Filled(creds) then Step(Silent, s)
    else if found.err.Some? || found.user.None? || found.user.value.password != creds.password.value then
      Step(NextError(WrongCredentials), s)
    else
      Step(Respond(200, LoginBody(found.user.value, "Authenticated", "1")),
           s.(session := s.session.(userId := Some(found.user.value.id))))
  }

  /** The request object, whose `user` and `session` the handlers update in place. */
  class Request {
    var user: Option<User>
    var session: Session

    constructor (user: Option<User>, session: Session)
      ensures this.user == user && this.session == session
    {
      this.user := user;
      this.session := session;
    }

    function Snapshot(): State
      reads this
    {
      State(user, session)
    }

    /** `req.login(u, cb)`: `failure` is what the session layer reports. */
    method LogIn(u: User, failure: Option<Fault>) returns (err: Option<Fault>)
      modifies this
      ensures err == failure
      ensures failure.None? ==> Snapshot() == LoggedIn(old(Snapshot()), u)
      ensures failure.Some? ==> user.None? && session == old(session)
    {
      user := Some(u);
      if failure.Some? {
        user := None;
        return failure;
      }
      session := session.(principal := Some(Serialize(u)));
      return None;
    }

    /** `req.logout()`. */
    method LogOut()
      modifies this
      ensures Snapshot() == LoggedOut(old(Snapshot()))
    {
      user := None;
      session := session.(principal := None);
    }

    /** The `auth` middleware. */
    method Auth(authn: Authn, loginFailure: Option<Fault>) returns (flow: Flow)
      modifies this
      ensures Step(flow, Snapshot()) == AuthStep(old(Snapshot()), authn, loginFailure)
    {
      if HasPrincipal(Snapshot()) {
        return Next;
      }
      match authn
      case AuthnError(f) =>
        return NextError(f);
      case NoUser =>
        return Forbidden;
      case AuthnUser(u) =>
        var err := LogIn(u, loginFailure);
        if err.Some? {
          return NextError(err.value);
        }
        return Next;
    }

    /** The `/login` handler, as written. */
    method PostLogin(creds: Credentials, found: Lookup) returns (flow: Flow)
      modifies this
      ensures Step(flow, Snapshot()) == LoginStep(old(Snapshot()), creds, found)
    {
      if !Filled(creds) {
        return Silent;
      }
      var rejects := found.err.Some? || found.user.None?;
      if rejects {
        if found.user.None? {
          return Thrown("TypeError");
        }
        if found.user.value.password != creds.password.value {
          return NextError(WrongCredentials);
        }
      }
      var u := found.user.value;
      session := session.(userId := Some(u.id));
      return Respond(200, LoginBody(u, "Authenticated", "1"));
    }

    /** The `/logout` handler. */
    method GetLogout() returns (flow: Flow)
      modifies this
      ensures Snapshot() == LoggedOut(old(Snapshot()))
      ensures flow == Respond(200, LogoutBody("Logged Out", "0"))
    {
      LogOut();
      return Respond(200, LogoutBody("Logged Out", "0"));
    }
  }

  /** A request that passed `auth` is reported by `/current-user` as its principal. */
  lemma CurrentUserAfterAuth(s: State, authn: Authn, loginFailure: Option<Fault>)
    requires AuthStep(s, authn, loginFailure).flow.Next?
    ensures var u := if HasPrincipal(s) then s.user.value else authn.user;
      CurrentUserResponse(AuthStep(s, authn, loginFailure).after.user) == Respond(200, Profile(u.username, u.role))
  {
  }

  /**
   * Across requests: `auth` logs a user in, the session keeps its principal,
   * `deserializeUser` restores the user on the next request, and
   * `/current-user` reports it.
   */
  lemma CurrentUserNextRequest(store: Store, s: State, u: User)
    requires UniqueIds(store.users) && u in store.users && store.outage.None? && !HasPrincipal(s)
    ensures var t := AuthStep(s, AuthnUser(u), None).after;
      var restored := Deserialize(FindById(store, t.session.principal.value));
      restored.Restored? && CurrentUserResponse(restored.user) == Respond(200, Profile(u.username, u.role))
  {
    LoginSurvivesSession(store, s, u);
  }

  /** After logout the next request is not authenticated: `auth` runs the strategies again and 403s without credentials. */
  lemma AuthAfterLogout(s: State, loginFailure: Option<Fault>)
    ensures AuthStep(LoggedOut(s), NoUser, loginFailure) == Step(Forbidden, LoggedOut(s))
    ensures CurrentUserResponse(LoggedOut(s).user).status == 401
  {
  }

  /**
   * A user logged in by `auth` from a store is restored by the session on
   * the next request: the session's principal deserializes to that user.
   */
  lemma LoginSurvivesSession(store: Store, s: State, u: User)
    requires UniqueIds(store.users) && u in store.users && store.outage.None?
    ensures var t := AuthStep(s, AuthnUser(u), None).after;
      !HasPrincipal(s) ==> Deserialize(FindById(store, t.session.principal.value)) == Restored(Some(u))
  {
    SessionRoundTrip(store, u);
  }

  /** The `/login` route as written accepts a wrong password for a stored user. */
  lemma LoginAcceptsWrongPassword()
    ensures var alice := User(1, "alice", "correct", "admin");
      LoginStep(State(None, NoSession), Credentials(Some("alice"), Some("wrong")), Lookup(None, Some(alice)))
        == Step(Respond(200, LoginBody(alice, "Authenticated", "1")), State(None, Session(Some(1), None)))
  {
  }

  /**
   * The intended `/login` against a store with unique usernames: it answers
   * 200 for a stored user exactly when the posted password is the stored one.
   */
  lemma IntendedLoginAgainstStore(store: Store, s: State, u: User, password: string)
    requires UniqueNames(store.users) && store.outage.None? && u in store.users
    requires u.username != "" && password != ""
    ensures var r := IntendedLoginStep(s, Credentials(Some(u.username), Some(password)), FindByUsername(store, u.username));
      r.flow.Respond? <==> password == u.password
  {
    FindUnique(store.users, u, Name(u.username));
  }
}
