/**
 * Passport's session hooks: `serializeUser` keeps only the user's id in
 * the session, `deserializeUser` turns it back into a user through
 * `findById`.
 */
module Sessions {
  import opened Wrappers
  import opened Principals
  import opened Strategies

  /**
   * The part of `req.session` the gateway touches: `userId`, written by
   * the `/login` route, and `principal`, the value passport stores for the
   * logged-in user (what `serializeUser` produced).
   */
  datatype Session = Session(userId: Option<int>, principal: Option<int>)

  const NoSession := Session(None, None)

  /** `serializeUser`: the session keeps the user's id and nothing else. */
  function Serialize(u: User): (principal: int)
    ensures principal == u.id
  {
    u.id
  }

  /** What `deserializeUser` calls back with: an error, or the (possibly missing) user. */
  datatype Restored = RestoreFailed(fault: Fault) | Restored(user: Option<User>)

  /** `deserializeUser`, given what `findById` answered. */
  function Deserialize(found: Lookup): (r: Restored)
    ensures r.RestoreFailed? <==> found.err.Some?
    ensures r.RestoreFailed? ==> r.fault == found.err.value
    ensures r.Restored? ==> r.user == found.user
  {
    if found.err.Some? then RestoreFailed(found.err.value) else Restored(found.user)
  }

  /** Serializing a stored user and deserializing the id gives the same user back, while the store is unchanged. */
  lemma SessionRoundTrip(store: Store, u: User)
    requires UniqueIds(store.users) && u in store.users
    ensures store.outage.None? ==> Deserialize(FindById(store, Serialize(u))) == Restored(Some(u))
    ensures store.outage.Some? ==> Deserialize(FindById(store, Serialize(u))) == RestoreFailed(store.outage.value)
  {
    FindUnique(store.users, u, Id(u.id));
  }

  /** Any user a strategy authenticated from the store survives the session round trip. */
  lemma AuthenticatedRoundTrip(store: Store, strategy: Strategy, name: string, password: string)
    requires UniqueIds(store.users)
    ensures var v := Verify(strategy, FindByUsername(store, name), password);
      v.Verified? ==> Deserialize(FindById(store, Serialize(v.user))) == Restored(Some(v.user))
  {
    var v := Verify(strategy, FindByUsername(store, name), password);
    if v.Verified? {
      SessionRoundTrip(store, v.user);
    }
  }
}
