/**
 * The verify callbacks of the three passport strategies: Local (the login
 * form), Basic (RFC 7617) and Digest (RFC 7616 with `qop=auth`). Each one
 * receives what `findByUsername` answered for the claimed username. Local and
 * Basic also receive the claimed password and call back with an error,
 * `false`, or the user. Digest never sees a password: its secret callback
 * calls back with an error, `false`, or the user and the stored password.
 */
module Strategies {
  import opened Wrappers
  import opened Principals

  datatype Strategy = Local | Basic | Digest

  /**
   * What a verify callback hands back to passport: an error, a refusal, the
   * authenticated user, or, for Digest, the user together with the shared
   * secret against which passport then checks the digest response itself.
   */
  datatype Verdict =
    | Errored(fault: Fault)
    | Rejected
    | Verified(user: User)
    | Challenge(user: User, secret: string)

  /**
   * The verdict of a callback whose `cb` is passport's `done`. `password` is
   * the supplied password for Local and Basic; Digest does not read it.
   */
  function Verify(strategy: Strategy, found: Lookup, password: string): (v: Verdict)
    // a store error is passed through untouched, whatever the strategy
    ensures v.Errored? <==> found.err.Some?
    ensures v.Errored? ==> v.fault == found.err.value
    // Local and Basic authenticate exactly the stored user whose password is the supplied one
    ensures strategy != Digest ==> !v.Challenge?
    ensures strategy != Digest ==>
      (v.Verified? <==> found.err.None? && found.user.Some? && found.user.value.password == password)
    // Digest never authenticates by itself: it hands back the stored secret of a known user
    ensures strategy == Digest ==> !v.Verified?
    ensures strategy == Digest ==> (v.Challenge? <==> found.err.None? && found.user.Some?)
    ensures v.Verified? || v.Challenge? ==> found.user == Some(v.user)
    ensures v.Challenge? ==> v.secret == v.user.password
  {
    if found.err.Some? then Errored(found.err.value)
    else if found.user.None? then Rejected
    else
      var user := found.user.value;
      match strategy
      case Digest => Challenge(user, user.password)
      case _ => if user.password != password then Rejected else Verified(user)
  }

  /** The Basic and Local callbacks are the same rule. */
  lemma LocalIsBasic(found: Lookup, password: string)
    ensures Verify(Local, found, password) == Verify(Basic, found, password)
  {
  }

  /** The Digest callback never looks at the supplied password. */
  lemma DigestIgnoresPassword(found: Lookup, password: string, other: string)
    ensures Verify(Digest, found, password) == Verify(Digest, found, other)
  {
  }

  /**
   * Against a store whose usernames are unique: a password strategy
   * authenticates the user of that name exactly when the supplied password
   * is the stored one, rejects an unknown name, and reports an outage.
   */
  lemma PasswordRuleAgainstStore(store: Store, strategy: Strategy, name: string, password: string)
    requires strategy != Digest && UniqueNames(store.users)
    ensures store.outage.Some? ==>
      Verify(strategy, FindByUsername(store, name), password) == Errored(store.outage.value)
    ensures store.outage.None? ==> forall u :: u in store.users && u.username == name ==>
      Verify(strategy, FindByUsername(store, name), password) == (if u.password == password then Verified(u) else Rejected)
    ensures store.outage.None? && (forall u :: u in store.users ==> u.username != name) ==>
      Verify(strategy, FindByUsername(store, name), password) == Rejected
  {
    forall u | u in store.users && u.username == name
      ensures store.outage.None? ==> FindByUsername(store, name).user == Some(u)
    {
      assert Keyed(u, Name(name));
      FindUnique(store.users, u, Name(name));
    }
  }

  /** Digest against a store: a known user comes back with the stored password as the shared secret. */
  lemma DigestAgainstStore(store: Store, name: string, password: string)
    requires UniqueNames(store.users) && store.outage.None?
    ensures forall u :: u in store.users && u.username == name ==>
      Verify(Digest, FindByUsername(store, name), password) == Challenge(u, u.password)
  {
    forall u | u in store.users && u.username == name
      ensures FindByUsername(store, name).user == Some(u)
    {
      assert Keyed(u, Name(name));
      FindUnique(store.users, u, Name(name));
    }
  }

  /**
   * Where the Digest secret callback declares `cb`: third, after `username`
   * and `password`, as written; or second, after `username`, as intended.
   */
  datatype Declared = AsWritten | AsIntended

  /** What a callback's `cb` parameter is bound to when passport calls it. */
  datatype Binding = Done | Undefined

  /**
   * What passport gets from a callback: the verdict passed to `done`, or an
   * exception thrown inside the store's callback, after which `done` is never called.
   */
  datatype Outcome = Answered(verdict: Verdict) | Threw(error: string)

  /**
   * passport-http calls the Digest secret callback with `(username, done)`,
   * so `done` reaches a `cb` declared second; a `cb` declared third is `undefined`.
   */
  function Bound(declared: Declared): (b: Binding)
    ensures b.Done? <==> declared == AsIntended
  {
    if declared == AsIntended then Done else Undefined
  }

  /** `cb(...)` with a verdict: `done` takes it, and calling `undefined` throws a TypeError. */
  function Call(cb: Binding, v: Verdict): (o: Outcome)
    ensures o.Answered? <==> cb.Done?
    ensures o.Answered? ==> o.verdict == v
    ensures o.Threw? ==> o.error == "TypeError"
  {
    if cb.Done? then Answered(v) else Threw("TypeError")
  }

  /**
   * The Digest secret callback as passport-http invokes it, with `cb` where
   * `declared` puts it. Every branch of its body calls `cb`.
   */
  function DigestSecret(declared: Declared, found: Lookup): (o: Outcome)
    ensures o.Answered? <==> declared == AsIntended
    ensures o.Threw? ==> o.error == "TypeError"
    // answering, it hands passport the Digest verdict: the store's error, a refusal, or the found user with its secret
    ensures o.Answered? ==> o.verdict == Verify(Digest, found, "")
    ensures o.Answered? ==> (o.verdict.Challenge? <==> found.err.None? && found.user.Some?)
    ensures o.Answered? && o.verdict.Challenge? ==> o.verdict == Challenge(found.user.value, found.user.value.password)
    ensures o.Answered? && !o.verdict.Challenge? ==>
      o.verdict == (if found.err.Some? then Errored(found.err.value) else Rejected)
  {
    Call(Bound(declared), Verify(Digest, found, ""))
  }

  /** As written, the Digest callback never answers passport: every lookup ends in a TypeError. */
  lemma DigestAsWrittenThrows(found: Lookup)
    ensures DigestSecret(AsWritten, found) == Threw("TypeError")
    ensures forall v :: DigestSecret(AsWritten, found) != Answered(v)
  {
  }

  /**
   * With `cb` declared second, the Digest callback answers passport with the
   * stored secret of a known user of a healthy store with unique usernames.
   */
  lemma DigestAsIntended(store: Store, name: string)
    requires UniqueNames(store.users) && store.outage.None?
    ensures forall u :: u in store.users && u.username == name ==>
      DigestSecret(AsIntended, FindByUsername(store, name)) == Answered(Challenge(u, u.password))
  {
    DigestAgainstStore(store, name, "");
  }
}
