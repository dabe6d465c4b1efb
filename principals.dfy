/**
 * Principals and the credential store adapter (`util/auth`).
 *
 * The store itself is not part of this model. Its two lookups,
 * `findByUsername` and `findById`, answer through a Node-style callback
 * `(err, user)`; a `Lookup` is exactly that pair of arguments, so every
 * callback in the gateway is modelled as a function of a `Lookup`. A
 * `Store` value gives one concrete way of producing lookups, used by the
 * lemmas that compose the gateway with a store.
 */
module Principals {
  import opened Wrappers

  /** A user record as the store returns it. */
  datatype User = User(id: int, username: string, password: string, role: string)

  /** An `Error` object: its message and, when set, its HTTP `status`. */
  datatype Fault = Fault(message: string, status: Option<int>)

  /** The arguments `(err, user)` a store lookup hands to its callback. */
  datatype Lookup = Lookup(err: Option<Fault>, user: Option<User>)

  /** What a lookup searches by. */
  datatype Key = Name(name: string) | Id(id: int)

  predicate Keyed(u: User, k: Key) {
    match k
    case Name(n) => u.username == n
    case Id(i) => u.id == i
  }

  /** The first user carrying key `k`, if any. */
  function Find(users: seq<User>, k: Key): (r: Option<User>)
    ensures r.Some? ==> r.value in users && Keyed(r.value, k)
    ensures r.None? <==> forall u :: u in users ==> !Keyed(u, k)
    ensures r.Some? ==> exists i :: 0 <= i < |users| && users[i] == r.value && forall j :: 0 <= j < i ==> !Keyed(users[j], k)
  {
    if users == [] then None
    else if Keyed(users[0], k) then Some(users[0])
    else Find(users[1..], k)
  }

  /** A store: its records, and the fault every lookup reports while it is down. */
  datatype Store = Store(users: seq<User>, outage: Option<Fault>)

  function Query(store: Store, k: Key): (r: Lookup)
    ensures store.outage.Some? ==> r.err == store.outage && r.user.None?
    ensures store.outage.None? ==> r.err.None?
    ensures r.user.Some? ==> r.user.value in store.users && Keyed(r.user.value, k)
    ensures store.outage.None? && r.user.None? ==> forall u :: u in store.users ==> !Keyed(u, k)
  {
    if store.outage.Some? then Lookup(store.outage, None) else Lookup(None, Find(store.users, k))
  }

  function FindByUsername(store: Store, name: string): Lookup {
    Query(store, Name(name))
  }

  function FindById(store: Store, id: int): Lookup {
    Query(store, Id(id))
  }

  /** No two records share an id (the store's own invariant). */
  predicate UniqueIds(users: seq<User>) {
    forall i, j :: 0 <= i < j < |users| ==> users[i].id != users[j].id
  }

  /** No two records share a username. */
  predicate UniqueNames(users: seq<User>) {
    forall i, j :: 0 <= i < j < |users| ==> users[i].username != users[j].username
  }

  /** In a store with unique keys of the searched kind, a lookup finds the one record carrying the key. */
  lemma FindUnique(users: seq<User>, u: User, k: Key)
    requires u in users && Keyed(u, k)
    requires k.Id? ==> UniqueIds(users)
    requires k.Name? ==> UniqueNames(users)
    ensures Find(users, k) == Some(u)
  {
    var v := Find(users, k).value;
    var i :| 0 <= i < |users| && users[i] == u;
    var j :| 0 <= j < |users| && users[j] == v;
    assert Keyed(users[i], k) && Keyed(users[j], k);
  }
}
