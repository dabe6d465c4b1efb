# OpenMapKit Server authentication gateway, in Dafny

This project models the access-control core of the OpenMapKit Server HTTP app (`index.js`):

- the verify callbacks of the three passport strategies: Local (the login form), Basic (RFC 7617) and Digest (RFC 7616, `qop=auth`);
- passport's `serializeUser`/`deserializeUser` session hooks;
- the `auth` middleware;
- the `/current-user`, `/login` and `/logout` routes;
- the ordered `app.use` mount table, which decides which guards a request passes through: `noAuth`, `auth`, and the role gate for `admin`/`data-viewer`.

Files and modules:

- `wrappers.dfy` (`Wrappers`): the `Option` type.
- `principals.dfy` (`Principals`): users, store faults, and the `(err, user)` pair a store lookup calls back with (`Lookup`). A `Store` value gives one concrete way to produce lookups. The real user store (`util/auth`) is not part of this model.
- `strategies.dfy` (`Strategies`): the three verify callbacks as one function over `Strategy = Local | Basic | Digest`.
- `sessions.dfy` (`Sessions`): the session fields that are used, `Serialize`, `Deserialize` and the session round trip.
- `gateway.dfy` (`Gateway`): response flows; the `auth` middleware as the function `AuthStep`; the `/login` and `/current-user` handlers as functions. A `Request` class with `user` and `session` fields holds the imperative versions: `Auth`, `LogIn` (req.login), `LogOut` (req.logout), `PostLogin` and `GetLogout`. Each is proved against its function.
- `mounts.dfy` (`Mounts`): the mount table as a `seq<Layer>`, the walk over it (`Walk`), and Express's in-order dispatch as a loop (`Dispatch`). It also has lemmas about which guards a path meets.

Every store lookup, and every foreign call, is a parameter:

- the strategies take what `findByUsername` answered (`Lookup`);
- `auth` takes what the combined `passport.authenticate` call reported (`Authn`) and what `req.login` reported (`Option<Fault>`);
- the walk takes the set of indices of the mounted layers that would answer the request (`served`).

The route modules and file servers behind those layers are not visible.

The model keeps these behaviours of the code as they are:

- `/login` answers 200 for any stored user found without an error, whatever password was posted (see Findings).
- `deserializeUser` passes a store error on as an error; it does not treat it as "no user".
- Express runs every matching `app.use` layer in registration order, and the model walks the table the same way.
- The `userId` that `/login` writes into the session is not read anywhere in the modelled core. `auth` recognises only the user that passport restores from the session's principal, and `/logout` leaves `userId` in place.

## Model

| member | source | states |
|---|---|---|
| Strategies.Verify | index.js:56-81 | A store error is passed on unchanged by every strategy. Local and Basic authenticate exactly the found user whose stored password equals the supplied one, and reject otherwise. Digest never authenticates on its own: for a known user it returns the user with the stored password as the secret, and for an unknown user it rejects. |
| Strategies.LocalIsBasic | index.js:73-81 | The Local callback applies the same rule as the Basic one, for every lookup and password. |
| Strategies.DigestIgnoresPassword | index.js:65-72 | The Digest callback's answer does not depend on the supplied password. |
| Strategies.DigestSecret | index.js:65-72 | The Digest secret callback as passport-http calls it, with `(username, done)`. It answers passport exactly when it declares `cb` second (`AsIntended`); the answer is then the Digest verdict of `Verify`: the store's error, a refusal for an unknown user, or the found user with its stored password. Declared as in the source (`AsWritten`, `cb` third), `cb` is `undefined` and calling it throws a TypeError. |
| Strategies.DigestAsWrittenThrows | index.js:66-70 | As written, the Digest callback throws a TypeError for every lookup, and passport's `done` is never called. |
| Strategies.DigestAsIntended | index.js:65-72 | With `cb` declared second, the Digest callback answers a known user of a healthy store with unique usernames with that user and its stored password. |
| Strategies.PasswordRuleAgainstStore | index.js:57-63 | Against a store with unique usernames: while the store is down, the answer is its error. Otherwise the user of that name is authenticated iff the password matches, and an unknown name is rejected. |
| Strategies.DigestAgainstStore | index.js:66-71 | Against a healthy store with unique usernames, a known user comes back paired with its stored password. |
| Sessions.Serialize | index.js:82-84 | The session keeps the user's id and nothing else. |
| Sessions.Deserialize | index.js:86-91 | The deserialize callback yields an error iff `findById` reported one, and otherwise the user it found, or none. |
| Sessions.SessionRoundTrip | index.js:82-91 | Deserializing the id that serializing a stored user produced gives that user back while the store is unchanged. While the store is down it gives the store's error. |
| Sessions.AuthenticatedRoundTrip | index.js:82-90 | Any user that a strategy authenticated from a store with unique ids survives the session round trip. |
| Gateway.LoggedIn | index.js:46-49 | A successful `req.login(u)` binds `u` and records its serialized id as the session's principal. It leaves `userId` alone. |
| Gateway.LoggedOut | index.js:146 | After `req.logout()` no user is bound and the session holds no principal. |
| Gateway.AuthStep | index.js:32-54 | A request with a bound user whose username is non-empty goes to `next()` unchanged, whatever the credentials. Otherwise exactly one of three things happens. An authentication error goes to `next(err)` with the request unchanged; a failed `req.login` goes to `next(err)` with `req.user` cleared. No user gives 403 `access forbidden` with no change. A user is logged in, then `next()`. `next()` is reached only with a bound user. |
| Gateway.CurrentUserResponse | index.js:114-122 | With a user it answers 200 with that user's username and role. Without one it answers 401 `User not authenticated`. |
| Gateway.LoginStep | index.js:124-143 | As written. A missing field means no lookup, no response and no change. A 401 comes exactly when the store reported an error and a user whose password differs. A missing user throws. A found user is never met with silence or a throw, so a store error with a matching password also gets 200. A user found without an error gets 200 with `auth: "1"` and `session.userId` set, whatever password was posted. `req.user` is never changed. |
| Gateway.IntendedLoginStep | index.js:126-140 | Corrected guard: 200, with `session.userId` set, exactly when the user is found without an error and the password matches. Every other filled request gets 401 with no change, and nothing throws. |
| Gateway.Request.LogIn | index.js:46-49 | On success the request reaches the `LoggedIn` state. On failure the error is returned, `req.user` is cleared and the session is unchanged. |
| Gateway.Request.LogOut | index.js:146 | The request reaches the `LoggedOut` state. |
| Gateway.Request.Auth | index.js:32-54 | The imperative middleware produces exactly the flow and request state of `AuthStep`. |
| Gateway.Request.PostLogin | index.js:124-143 | The imperative handler produces exactly the flow and request state of `LoginStep`. |
| Gateway.Request.GetLogout | index.js:145-151 | The handler logs out and answers 200 `Logged Out` with `auth: "0"`. |
| Gateway.CurrentUserAfterAuth | index.js:114-121 | On the state `auth` leaves behind when it calls `next()`, `/current-user` would answer 200 with the username and role of the user already bound when its username is non-empty, and otherwise of the user the strategies authenticated. |
| Gateway.CurrentUserNextRequest | index.js:82-91 | Across requests: after `auth` logs in a user of a healthy store with unique ids, the session's principal deserializes to that user, and `/current-user` answers 200 with its username and role. |
| Gateway.AuthAfterLogout | index.js:145-151 | After logout, `auth` without credentials answers 403 and `/current-user` answers 401. |
| Gateway.LoginSurvivesSession | index.js:82-91 | A user that `auth` logged in from a store with unique ids is restored on the next request: the principal stored in the session deserializes to that user. |
| Gateway.LoginAcceptsWrongPassword | index.js:128-139 | As written, `/login` answers 200 for alice/correct when the posted password is "wrong". |
| Gateway.IntendedLoginAgainstStore | index.js:127-140 | The corrected login against a store with unique usernames answers 200 for a stored user iff the posted password is the stored one. |
| Mounts.Permits | index.js:27 | The gate lets a request on iff a user is bound whose role is in the list. It refuses for a missing user and for a role outside the list, and the two refusals are distinct. |
| Mounts.Visit | index.js:158-187 | One layer of the stack. A layer whose mount does not match passes the request on unchanged. A matching mounted layer answers exactly when it is in `served`. `noAuth` passes the request on. A matching `auth` leaves `AuthStep`'s state and stops exactly when `AuthStep` does not call `next()`, with `AuthStep`'s flow. A matching role gate refuses exactly when `Permits` refuses, for `Permits`'s reason, and never changes the request. A layer other than `auth` or the role gate never changes the request. |
| Mounts.Walk | index.js:158-187 | A walk from layer `i` ends unhandled or at a layer at or after `i`. |
| Mounts.WalkEnding | index.js:158-187 | A walk ends only at a layer whose mount matches the path: at a mounted layer that answers, at an `auth` that did not call `next()` (its flow is never `next()`), or at a role gate that refused. |
| Mounts.Dispatch | index.js:158-187 | Express's in-order loop over the middleware stack ends exactly as `Walk` does and leaves the request in the same state. |
| Mounts.MountTableChecks | index.js:158-187 | Only `auth` at `/omk/odk` and the role gate at `/omk/data/submissions` can refuse or change a request. |
| Mounts.PublicPathsSkipAuthentication | index.js:158-187 | Requests under `/formList`, `/view`, `/omk/deployments` and `/omk/pages` pass no `auth` and no role gate. They end at a mounted layer or unhandled, with the request unchanged (no user gets bound), and the outcome does not depend on the credentials or on any strategy's lookup. |
| Mounts.UncheckedWalk | index.js:158-187 | When no later `auth` or role gate matches the path, the rest of the walk ends at a mounted layer or unhandled. The request is unchanged and the credentials make no difference. |
| Mounts.AggregateFromAuth | index.js:169-177 | From the `auth` layer under `/omk/odk`, `odkAggregate` answers only with a bound user. An anonymous request without credentials is stopped there with 403. |
| Mounts.AggregateRequiresAuthentication | index.js:160-177 | Under `/omk/odk`, `auth` is registered before `odkAggregate`. The aggregate routes answer only a request with a bound user. Unless the OpenRosa routes at `/` answer first, an anonymous request without credentials is stopped by `auth` with 403. |
| Mounts.SubmissionServedWithoutRole | index.js:183-185 | As registered, when the static server has a file under `/omk/data/submissions` it answers before the role gate runs, for any user or none and whatever the credentials. |
| Mounts.GatedFromGate | index.js:185 | In the corrected table, from the role gate on, the file servers answer only a user the gate admitted. |
| Mounts.GatedSubmissionsRequireRole | index.js:183-185 | With the role gate registered before the `/omk/data` file servers, anything those servers answer under `/omk/data/submissions` goes to a user whose role is `admin` or `data-viewer`. |
| Mounts.DataViewerGate | index.js:27 | A `data-viewer` passes the `{admin, data-viewer}` gate and is refused by a gate for `admin` alone. |

## Left out

- Passport's fallback between the strategies in `passport.authenticate(['local', 'basic', 'digest'])` is left out. So are the extraction of credentials from headers and bodies, and the RFC 7616 HA1/response (MD5) computation. That code is in libraries outside this repository, so the combined result is an input (`Authn`).
- `req.login`/`req.logout` are modelled only as binding/clearing `req.user` and the session's principal. Login success or failure is an input. The express-session store and cookies are not modelled.
- Strategies.Verify: its Digest case is the secret callback as evidently intended, answering passport with the user and its stored password. As written, with `cb` declared third, the callback throws instead (see Findings and `Strategies.DigestSecret`). The rest of the model takes the combined authentication result as an input, so it does not carry that throw into `auth`.
- Mounts.Permits: models only the role check and the reason for refusing. The `permission` package's response on refusal is not visible, so it is not modelled.
- Mounts.Matches: a path is modelled as its list of `/`-separated segments, and a mount matches when its segments are a prefix of the path's. This is Express's segment-boundary rule. Case-insensitive matching, URL decoding and splitting the raw string are left out.
- Mounts.Walk: models what the mounted route modules, static servers and directory listings do only as the `served` input. Their code is not part of this model. The error-handling middleware (index.js:189) is not modelled.
- The `app.get` routes registered before the mounts (index.js:110-112, 114, 124, 145) are not in the mount table. They serve exact paths that no guard covers.
- Restoring the session (`passport.session()`, index.js:107) runs before the walk on every path, public ones included. For a session that holds a principal it looks the principal up with `findById`, and a store error there ends the request before any mount is reached. The walk starts after that step, so its outcome on public paths is independent only of the strategies' lookups, not of this one. `passport.session()` is otherwise wiring. Its effect is stated through `Deserialize` and the round-trip lemmas. The user bound at the start of a walk is an input.
- Request body values are modelled as strings only. JavaScript's loose `!=` in the Basic/Local callbacks behaves like strict inequality on strings.
- The user store (`util/auth`) is modelled as a sequence of records with an optional outage. `Find` returns the first match. The model assumes the store reports an unknown user as `null`/`undefined`, which is why `/login` throws for one.
- Settings loading and `process.exit` (index.js:5-10), CORS, logging, body and cookie parsing, `info`, `redirectToForms` and the ODK route modules are left out. They are I/O and plumbing. Concurrency between requests is not modelled.

## Findings

| source | as written | input that shows it | evidently intended | confidence | as-written member | corrected member |
|---|---|---|---|---|---|---|
| index.js:128 | `(err \|\| !user) && user.password !== password` refuses only when the store errs, and it reads `password` of a missing user | store has alice/correct/admin; POST `/login` with alice/wrong answers 200 and sets `session.userId` | refuse on an error, a missing user or a different password | high; not executed | Gateway.LoginStep, Gateway.LoginAcceptsWrongPassword | Gateway.IntendedLoginStep |
| index.js:183-185 | the role gate for `/omk/data/submissions` is registered after the static server and directory listing for `/omk/data` | anonymous GET `/omk/data/submissions/form/1.json` for an existing file is served by the static server (layer 6), whoever asks | files under `/omk/data/submissions` reach only `admin` or `data-viewer` users | medium; not executed | Mounts.Walk over Mounts.MountTable, Mounts.SubmissionServedWithoutRole | Mounts.GatedSubmissionsRequireRole |
| index.js:66 | the Digest secret callback declares `(username, password, cb)`; passport-http calls it with `(username, done)`, so `done` lands in `password` and `cb` is `undefined` | a request to `/omk/odk/x` with only an `Authorization: Digest username="alice", …` header: every branch at index.js:68-70 calls `cb`, which throws a TypeError, and passport's `done` is never called | declare `(username, cb)` so that `cb` is `done` and the user and its stored password reach passport | medium (passport-http's calling convention is not in this repository); not executed | Strategies.DigestSecret, Strategies.DigestAsWrittenThrows | Strategies.Verify, Strategies.DigestAsIntended |
