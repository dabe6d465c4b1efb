/**
 * The `app.use` mount table: an ordered list of (path prefix, layer) entries
 * that express walks in registration order for every request. Guards are
 * `noAuth`, `auth` and the role gate built from `['admin', 'data-viewer']`;
 * the other layers are route modules and file servers whose behaviour lies
 * outside the gateway, so which of them answer a given request is an input
 * (`served`, the indices of the layers that respond).
 */
module Mounts {
  import opened Wrappers
  import opened Principals
  import opened Gateway

  datatype Guard = NoAuth | Auth | Permit(roles: set<string>)

  datatype Kind = Guarded(guard: Guard) | Mounted(name: string)

  /**
   * A request path as its `/`-separated segments (`/omk/data/x` is
   * `["omk", "data", "x"]`), and a mount path the same way (`/` is `[]`).
   */
  type Path = seq<string>

  datatype Layer = Layer(prefix: Path, kind: Kind)

  /** Why the role gate turned a request away. */
  datatype Denial = Unauthenticated | RoleNotAllowed

  /** How a walk through the table ends, and at which layer. */
  datatype Ending =
    | Handled(at: nat)              // a mounted layer answered
    | Stopped(at: nat, flow: Flow)  // `auth` did not call next()
    | Denied(at: nat, reason: Denial)
    | Unhandled                     // every layer passed the request on

  datatype Trip = Trip(ending: Ending, after: State)

  /** The roles the `permission` gate is built with. */
  const DataRoles: set<string> := {"admin", "data-viewer"}

  /** Whether a mount at `prefix` sees `path`: Express matches mounts at segment boundaries. */
  predicate Matches(prefix: Path, path: Path) {
    prefix <= path
  }

  /** Layers that may refuse or change a request: `auth` and role gates. */
  predicate Checks(k: Kind) {
    k.Guarded? && !k.guard.NoAuth?
  }

  /** The role gate lets a request on when a user is bound whose role is in the list. */
  function Permits(roles: set<string>, user: Option<User>): (d: Option<Denial>)
    ensures d.None? <==> user.Some? && user.value.role in roles
    ensures d == Some(Unauthenticated) <==> user.None?
  {
    if user.None? then Some(Unauthenticated)
    else if user.value.role in roles then None
    else Some(RoleNotAllowed)
  }

  /** The table as registered in the source. */
  const MountTable: seq<Layer> := [
    Layer(["formList"], Guarded(NoAuth)),
    Layer(["view"], Guarded(NoAuth)),
    Layer([], Mounted("odkOpenRosa")),
    Layer(["omk", "odk"], Guarded(Auth)),
    Layer(["omk", "odk"], Mounted("odkAggregate")),
    Layer(["omk", "deployments"], Mounted("deployments")),
    Layer(["omk", "data"], Mounted("static")),
    Layer(["omk", "data"], Mounted("directory")),
    Layer(["omk", "data", "submissions"], Guarded(Permit(DataRoles))),
    Layer(["omk", "pages"], Mounted("static")),
    Layer(["omk", "pages"], Mounted("directory"))
  ]

  /** The table with the role gate registered ahead of the `/omk/data` file servers. */
  const GatedMountTable: seq<Layer> := [
    Layer(["formList"], Guarded(NoAuth)),
    Layer(["view"], Guarded(NoAuth)),
    Layer([], Mounted("odkOpenRosa")),
    Layer(["omk", "odk"], Guarded(Auth)),
    Layer(["omk", "odk"], Mounted("odkAggregate")),
    Layer(["omk", "deployments"], Mounted("deployments")),
    Layer(["omk", "data", "submissions"], Guarded(Permit(DataRoles))),
    Layer(["omk", "data"], Mounted("static")),
    Layer(["omk", "data"], Mounted("directory")),
    Layer(["omk", "pages"], Mounted("static")),
    Layer(["omk", "pages"], Mounted("directory"))
  ]

  /** What one layer does with a request: pass it on, or end the walk. */
  datatype Turn = Onward(after: State) | Halt(ending: Ending, after: State)

  /**
   * Layer `i` of a walk: a layer whose prefix does not match is skipped, a
   * matching mounted layer answers when it is in `served`, and a guard runs.
   * `authn` and `loginFailure` are what `auth` would see.
   */
  function Visit(layer: Layer, i: nat, path: Path, served: set<nat>, s: State,
                 authn: Authn, loginFailure: Option<Fault>): (t: Turn)
    ensures t.Halt? ==> Matches(layer.prefix, path) && !t.ending.Unhandled? && t.ending.at == i
    ensures t.Halt? && t.ending.Handled? ==> i in served && layer.kind.Mounted?
    ensures t.Halt? && t.ending.Stopped? ==> layer.kind == Guarded(Auth)
    ensures t.Halt? && t.ending.Denied? ==> layer.kind.Guarded? && layer.kind.guard.Permit?
    ensures !Checks(layer.kind) ==> t.after == s && (t.Halt? ==> t.ending.Handled?)
    // a layer that does not see the path passes the request on untouched
    ensures !Matches(layer.prefix, path) ==> t == Onward(s)
    // a matching mounted layer answers exactly when it serves the request
    ensures Matches(layer.prefix, path) && layer.kind.Mounted? ==> (t.Halt? <==> i in served)
    // `auth` goes on or stops exactly as `AuthStep` says, leaving its state
    ensures Matches(layer.prefix, path) && layer.kind == Guarded(Auth) ==>
      var step := AuthStep(s, authn, loginFailure);
      t.after == step.after && (t.Halt? <==> !step.flow.Next?)
    ensures t.Halt? && t.ending.Stopped? ==>
      t.ending.flow == AuthStep(s, authn, loginFailure).flow && !t.ending.flow.Next?
    // the role gate refuses exactly when `Permits` does, for the reason it gives, and changes nothing
    ensures Matches(layer.prefix, path) && layer.kind.Guarded? && layer.kind.guard.Permit? ==>
      t.after == s && (t.Halt? <==> Permits(layer.kind.guard.roles, s.user).Some?)
    ensures t.Halt? && t.ending.Denied? ==> Some(t.ending.reason) == Permits(layer.kind.guard.roles, s.user)
  {
    if !Matches(layer.prefix, path) then Onward(s)
    else match layer.kind
      case Mounted(_) => if i in served then Halt(Handled(i), s) else Onward(s)
      case Guarded(NoAuth) => Onward(s)
      case Guarded(Auth) =>
        var step := AuthStep(s, authn, loginFailure);
        if step.flow.Next? then Onward(step.after) else Halt(Stopped(i, step.flow), step.after)
      case Guarded(Permit(roles)) =>
        var denial := Permits(roles, s.user);
        if denial.None? then Onward(s) else Halt(Denied(i, denial.value), s)
  }

  /** The walk from layer `i` on: each layer in turn, until one ends it. */
  function Walk(table: seq<Layer>, i: nat, path: Path, served: set<nat>, s: State,
                authn: Authn, loginFailure: Option<Fault>): (r: Trip)
    requires i <= |table|
    ensures r.ending.Unhandled? || i <= r.ending.at < |table|
    decreases |table| - i
  {
    if i == |table| then Trip(Unhandled, s)
    else match Visit(table[i], i, path, served, s, authn, loginFailure)
      case Onward(t) => Walk(table, i + 1, path, served, t, authn, loginFailure)
      case Halt(e, t) => Trip(e, t)
  }

  /**
   * A walk ends only at a layer that sees the path: a mounted layer that
   * answers, an `auth` that did not call next(), or a role gate that refused.
   */
  lemma {:induction false} WalkEnding(table: seq<Layer>, i: nat, path: Path, served: set<nat>, s: State,
                                      authn: Authn, loginFailure: Option<Fault>)
    requires i <= |table|
    ensures var r := Walk(table, i, path, served, s, authn, loginFailure);
      && (!r.ending.Unhandled? ==> Matches(table[r.ending.at].prefix, path))
      && (r.ending.Handled? ==> r.ending.at in served && table[r.ending.at].kind.Mounted?)
      && (r.ending.Stopped? ==> table[r.ending.at].kind == Guarded(Auth) && !r.ending.flow.Next?)
      && (r.ending.Denied? ==> table[r.ending.at].kind.Guarded? && table[r.ending.at].kind.guard.Permit?)
    decreases |table| - i
  {
    if i < |table| {
      var turn := Visit(table[i], i, path, served, s, authn, loginFailure);
      if turn.Onward? {
        WalkEnding(table, i + 1, path, served, turn.after, authn, loginFailure);
      }
    }
  }

  /** Express walking its middleware stack for one request. */
  method Dispatch(req: Request, table: seq<Layer>, path: Path, served: set<nat>,
                  authn: Authn, loginFailure: Option<Fault>) returns (ending: Ending)
    modifies req
    ensures Trip(ending, req.Snapshot()) == Walk(table, 0, path, served, old(req.Snapshot()), authn, loginFailure)
  {
    var i := 0;
    while i < |table|
      invariant 0 <= i <= |table|
      invariant Walk(table, i, path, served, req.Snapshot(), authn, loginFailure)
             == Walk(table, 0, path, served, old(req.Snapshot()), authn, loginFailure)
    {
      var layer := table[i];
      if Matches(layer.prefix, path) {
        match layer.kind
        case Mounted(_) =>
          if i in served {
            return Handled(i);
          }
        case Guarded(NoAuth) =>
        case Guarded(Auth) =>
          var flow := req.Auth(authn, loginFailure);
          if !flow.Next? {
            return Stopped(i, flow);
          }
        case Guarded(Permit(roles)) =>
          var denial := Permits(roles, req.user);
          if denial.Some? {
            return Denied(i, denial.value);
          }
      }
      i := i + 1;
    }
    return Unhandled;
  }

  /** Two mounts that differ in some segment never see the same path. */
  lemma Disjoint(p: Path, q: Path, k: nat)
    requires k < |p| && k < |q| && p[k] != q[k]
    ensures forall path :: Matches(p, path) ==> !Matches(q, path)
  {
    forall path | Matches(p, path)
      ensures !Matches(q, path)
    {
      assert path[k] == p[k];
    }
  }

  /**
   * From layer `i` on, no `auth` or role gate sees the path: the request
   * ends at a mounted layer or unhandled, its state untouched, and the
   * credentials never matter.
   */
  lemma {:induction false} UncheckedWalk(table: seq<Layer>, i: nat, path: Path, served: set<nat>, s: State,
                                         authn: Authn, loginFailure: Option<Fault>,
                                         authn': Authn, loginFailure': Option<Fault>)
    requires i <= |table|
    requires forall k :: i <= k < |table| && Matches(table[k].prefix, path) ==> !Checks(table[k].kind)
    ensures var r := Walk(table, i, path, served, s, authn, loginFailure);
      r == Walk(table, i, path, served, s, authn', loginFailure') && r.after == s
      && (r.ending.Handled? || r.ending.Unhandled?)
    decreases |table| - i
  {
    if i < |table| {
      var turn := Visit(table[i], i, path, served, s, authn, loginFailure);
      assert turn == Visit(table[i], i, path, served, s, authn', loginFailure') by {
        if Matches(table[i].prefix, path) {
          assert !Checks(table[i].kind);
        }
      }
      UncheckedWalk(table, i + 1, path, served, s, authn, loginFailure, authn', loginFailure');
    }
  }

  /** Only layers 3 (`auth`) and 8 (the role gate) of the table can refuse or change a request. */
  lemma MountTableChecks()
    ensures forall k :: 0 <= k < |MountTable| && k != 3 && k != 8 ==> !Checks(MountTable[k].kind)
  {
  }

  /** Paths under the mounts the ODK clients use without credentials. */
  predicate PublicPath(path: Path) {
    Matches(["formList"], path) || Matches(["view"], path)
    || Matches(["omk", "deployments"], path) || Matches(["omk", "pages"], path)
  }

  /**
   * A request to a public path passes no `auth` and no role gate: it is
   * answered by a mounted layer or falls through, no user is bound, and the
   * credentials (and so every strategy's store lookup) are irrelevant to the outcome.
   */
  lemma PublicPathsSkipAuthentication(path: Path, served: set<nat>, s: State,
                                      authn: Authn, loginFailure: Option<Fault>,
                                      authn': Authn, loginFailure': Option<Fault>)
    requires PublicPath(path)
    ensures var r := Walk(MountTable, 0, path, served, s, authn, loginFailure);
      r == Walk(MountTable, 0, path, served, s, authn', loginFailure') && r.after == s
      && (r.ending.Handled? || r.ending.Unhandled?)
  {
    Disjoint(["omk", "odk"], ["formList"], 0);
    Disjoint(["omk", "odk"], ["view"], 0);
    Disjoint(["omk", "odk"], ["omk", "deployments"], 1);
    Disjoint(["omk", "odk"], ["omk", "pages"], 1);
    Disjoint(["omk", "data", "submissions"], ["formList"], 0);
    Disjoint(["omk", "data", "submissions"], ["view"], 0);
    Disjoint(["omk", "data", "submissions"], ["omk", "deployments"], 1);
    Disjoint(["omk", "data", "submissions"], ["omk", "pages"], 1);
    MountTableChecks();
    UncheckedWalk(MountTable, 0, path, served, s, authn, loginFailure, authn', loginFailure');
  }

  /** A layer that lets the request on unchanged just moves the walk one layer further. */
  lemma Skip(table: seq<Layer>, i: nat, path: Path, served: set<nat>, s: State,
             authn: Authn, loginFailure: Option<Fault>)
    requires i < |table|
    requires !Matches(table[i].prefix, path) || table[i].kind == Guarded(NoAuth)
             || (table[i].kind.Mounted? && i !in served)
    ensures Walk(table, i, path, served, s, authn, loginFailure)
         == Walk(table, i + 1, path, served, s, authn, loginFailure)
  {
    assert Visit(table[i], i, path, served, s, authn, loginFailure) == Onward(s);
  }

  /** A path under a nested mount is also under the mount that encloses it. */
  lemma Enclosed(outer: Path, inner: Path, path: Path)
    requires outer <= inner && Matches(inner, path)
    ensures Matches(outer, path)
  {
    assert path[..|outer|] == inner[..|outer|];
  }

  /** From the `auth` layer on, under `/omk/odk`: the part of the walk that `auth` decides. */
  lemma AggregateFromAuth(path: Path, served: set<nat>, s: State, authn: Authn, loginFailure: Option<Fault>)
    requires Matches(["omk", "odk"], path)
    ensures var r := Walk(MountTable, 3, path, served, s, authn, loginFailure);
      (r.ending == Handled(4) ==> r.after.user.Some?)
      && (!HasPrincipal(s) && authn.NoUser? ==> r == Trip(Stopped(3, Forbidden), s))
  {
    var T := MountTable;
    var step := AuthStep(s, authn, loginFailure);
    assert Visit(T[3], 3, path, served, s, authn, loginFailure)
        == if step.flow.Next? then Onward(step.after) else Halt(Stopped(3, step.flow), step.after);
    if step.flow.Next? && 4 !in served {
      Skip(T, 4, path, served, step.after, authn, loginFailure);
    }
  }

  /**
   * Under `/omk/odk`, `auth` runs before `odkAggregate`: the aggregate
   * routes answer only a request with a bound user, and, unless the
   * OpenRosa routes mounted at `/` answer first, an anonymous request
   * without credentials gets the 403 from `auth`.
   */
  lemma AggregateRequiresAuthentication(path: Path, served: set<nat>, s: State,
                                        authn: Authn, loginFailure: Option<Fault>)
    requires Matches(["omk", "odk"], path)
    ensures var r := Walk(MountTable, 0, path, served, s, authn, loginFailure);
      (r.ending == Handled(4) ==> r.after.user.Some?)
      && (2 !in served && !HasPrincipal(s) && authn.NoUser? ==> r == Trip(Stopped(3, Forbidden), s))
  {
    var T := MountTable;
    Disjoint(["omk", "odk"], ["formList"], 0);
    Disjoint(["omk", "odk"], ["view"], 0);
    Skip(T, 0, path, served, s, authn, loginFailure);
    Skip(T, 1, path, served, s, authn, loginFailure);
    if 2 !in served {
      Skip(T, 2, path, served, s, authn, loginFailure);
      AggregateFromAuth(path, served, s, authn, loginFailure);
    }
  }

  /**
   * As registered, the file servers at `/omk/data` run before the role gate
   * at `/omk/data/submissions`: when the static server has the file, it
   * answers, whoever asks and whatever credentials came with the request.
   */
  lemma SubmissionServedWithoutRole(path: Path, served: set<nat>, s: State,
                                    authn: Authn, loginFailure: Option<Fault>)
    requires Matches(["omk", "data", "submissions"], path) && 2 !in served && 6 in served
    ensures Walk(MountTable, 0, path, served, s, authn, loginFailure) == Trip(Handled(6), s)
  {
    var T := MountTable;
    Disjoint(["omk", "data", "submissions"], ["formList"], 0);
    Disjoint(["omk", "data", "submissions"], ["view"], 0);
    Disjoint(["omk", "data", "submissions"], ["omk", "odk"], 1);
    Disjoint(["omk", "data", "submissions"], ["omk", "deployments"], 1);
    Enclosed(["omk", "data"], ["omk", "data", "submissions"], path);
    Skip(T, 0, path, served, s, authn, loginFailure);
    Skip(T, 1, path, served, s, authn, loginFailure);
    Skip(T, 2, path, served, s, authn, loginFailure);
    Skip(T, 3, path, served, s, authn, loginFailure);
    Skip(T, 4, path, served, s, authn, loginFailure);
    Skip(T, 5, path, served, s, authn, loginFailure);
    assert Visit(T[6], 6, path, served, s, authn, loginFailure) == Halt(Handled(6), s);
  }

  /** Only layers 3 (`auth`) and 6 (the role gate) of the gated table can refuse or change a request. */
  lemma GatedMountTableChecks()
    ensures forall k :: 0 <= k < |GatedMountTable| && k != 3 && k != 6 ==> !Checks(GatedMountTable[k].kind)
  {
  }

  /** From the role gate on, in the gated table: the file servers answer only users the gate admitted. */
  lemma GatedFromGate(path: Path, served: set<nat>, s: State, authn: Authn, loginFailure: Option<Fault>)
    requires Matches(["omk", "data", "submissions"], path)
    ensures var r := Walk(GatedMountTable, 6, path, served, s, authn, loginFailure);
      r.ending.Handled? ==> r.after.user.Some? && r.after.user.value.role in DataRoles
  {
    var T := GatedMountTable;
    if Permits(DataRoles, s.user).None? {
      assert Visit(T[6], 6, path, served, s, authn, loginFailure) == Onward(s);
      GatedMountTableChecks();
      UncheckedWalk(T, 7, path, served, s, authn, loginFailure, authn, loginFailure);
    }
  }

  /**
   * With the gate first, whatever the `/omk/data` file servers answer under
   * `/omk/data/submissions` goes to a user whose role is admin or data-viewer.
   */
  lemma GatedSubmissionsRequireRole(path: Path, served: set<nat>, s: State,
                                    authn: Authn, loginFailure: Option<Fault>)
    requires Matches(["omk", "data", "submissions"], path)
    ensures var r := Walk(GatedMountTable, 0, path, served, s, authn, loginFailure);
      r.ending.Handled? && 7 <= r.ending.at ==> r.after.user.Some? && r.after.user.value.role in DataRoles
  {
    var T := GatedMountTable;
    Disjoint(["omk", "data", "submissions"], ["formList"], 0);
    Disjoint(["omk", "data", "submissions"], ["view"], 0);
    Disjoint(["omk", "data", "submissions"], ["omk", "odk"], 1);
    Disjoint(["omk", "data", "submissions"], ["omk", "deployments"], 1);
    Skip(T, 0, path, served, s, authn, loginFailure);
    Skip(T, 1, path, served, s, authn, loginFailure);
    if 2 !in served {
      Skip(T, 2, path, served, s, authn, loginFailure);
      Skip(T, 3, path, served, s, authn, loginFailure);
      Skip(T, 4, path, served, s, authn, loginFailure);
      Skip(T, 5, path, served, s, authn, loginFailure);
      GatedFromGate(path, served, s, authn, loginFailure);
    }
  }

  /** The role gate of the table admits a data-viewer, while a gate for admins alone would not. */
  lemma DataViewerGate(u: User)
    requires u.role == "data-viewer"
    ensures Permits(DataRoles, Some(u)).None?
    ensures Permits({"admin"}, Some(u)) == Some(RoleNotAllowed)
  {
  }
}
