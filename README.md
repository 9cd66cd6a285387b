# actix_login credential and session core, in Dafny

This project models the trust core of a small actix-web login service. The service stores
users in a SQLite `users` table (username → bcrypt hash) and remembers the logged-in user
in a signed session cookie (actix `Identity`). The model covers four handlers:

- `create_user` runs the registration query: an existence check, a hash, one insert.
  On success it remembers the new user in the session.
- `login` runs the login query: a lookup and a verify. On success it remembers the user.
- `logout` clears the identity: the response tells the client to drop its session cookie.
- `update_password` needs a session. It clears the identity, runs the update query
  (lookup, verify the old password, hash the new one, rewrite the row), and remembers
  the user again only on success.

Layout:

- `wrappers.dfy`, `errors.dfy`, `models.dfy`: `Option`/`Result`, the `ServiceError` kinds with
  the two `BadRequest` messages, `SlimUser`, and the `State` a request sees (table + identity).
- `utils.dfy`: the bcrypt primitive as an uninterpreted `Crypto` value (two function-typed fields),
  and `Hash`/`Verify`, which map its failures to `InternalServerError` and `Unauthorized`.
- `auth_handler.dfy`, `register_handler.dfy`: each query and handler as a function of the state,
  with contracts for every branch, plus lemmas that relate several calls.
- `service.dfy`: class `AuthService`. Its fields `users: map<string, string>` and
  `identity: Option<string>` are updated in place by methods mirroring the Rust functions.
  Each method is proved to produce exactly the transition its handler function describes.
- `server.dfy`: the four routes as a `Request`, one client's sequence of requests (`Run`), and
  invariants proved by induction over any such sequence.

Collaborators become parameters:

- The hash primitive is a `Crypto` value fixed for the life of the process.
- A cancellation of the blocking worker (`BlockingError::Canceled`) is a `canceled: bool`
  argument of each handler. A canceled call is taken not to have run its query.

Behaviour of the code worth noting:

- A failed password change answers `BadRequest("Username not exist !")` for a missing user,
  a wrong old password and a verifier failure alike. There is no distinct credential error.
- A verifier failure during login is answered `Unauthorized`, exactly like a wrong password.
- `update_password` clears the identity before its query runs, so after any failure (a canceled
  worker included) the client is told to drop its cookie and is not sent a new one.
- The handler does not map a uniqueness violation on insert to "Username already exist !".
  The insert's `?` passes the database error to the conversion in `src/errors.rs`, which is
  not part of this model, so the answer in that case is not modelled.

## Model

| member | source | states |
|---|---|---|
| Utils.Hash | src/utils.rs:9-14 | succeeds exactly when the library hashes the password, and returns the library's hash unchanged; a library failure is InternalServerError and yields no hash |
| Utils.Verify | src/utils.rs:16-21 | a library failure is Unauthorized, distinct from a mismatch (`Success(false)`); `Success(true)` exactly when the primitive accepts the password |
| AuthHandler.Query | src/auth_handler.rs:72-91 | login query succeeds iff a row for the username exists and verify gives `Ok(true)`; then it returns that stored username only; unknown user, wrong password and verifier error all give Unauthorized; the table is not an output, so it cannot change |
| AuthHandler.QueryUpdate | src/auth_handler.rs:93-119 | missing row, verifier error or wrong old password give BadRequest("Username not exist !") with the table unchanged; a failure hashing the new password gives InternalServerError with the table unchanged; success iff old password verifies and hashing works, then the session user's row holds the hash of the new password, every other row is unchanged and no row is added or deleted |
| AuthHandler.Login | src/auth_handler.rs:52-70 | success iff not canceled and the credentials match; then the session remembers that user; on failure the session is left as it was, with InternalServerError for a canceled worker and Unauthorized otherwise; the table never changes |
| AuthHandler.UpdatePassword | src/auth_handler.rs:18-45 | with no session: Unauthorized and nothing changes; with a session, any failure leaves the table unchanged and the session empty; canceled gives InternalServerError; a mismatch gives the BadRequest message; a verified old password whose new password fails to hash gives InternalServerError; success iff session present, not canceled, old password verifies and hashing works, then the session keeps its user and only that row takes the new hash |
| AuthHandler.Logout | src/auth_handler.rs:47-50 | always answers Ok, leaves the table as it was and leaves no user in the session, whatever it held |
| AuthHandler.PasswordChangeTakesEffect | src/auth_handler.rs:104-114 | after a successful change, login with the new password succeeds and with the old one fails Unauthorized, assuming the primitive round-trips the new password and rejects the old one against the new hash |
| RegisterHandler.Query | src/register_handler.rs:31-52 | taken username gives BadRequest("Username already exist !") with the table unchanged; hash failure gives InternalServerError before any insert; success iff the name is free and hashing works, then exactly one row is added holding the primitive's hash (not the request password), no other row changes, and the result carries only the requested username |
| RegisterHandler.CreateUser | src/register_handler.rs:11-29 | success iff not canceled, name free and hashing works; then the table gains that row and the session remembers the new user; on failure the table and the session are unchanged, with BadRequest for a taken name and InternalServerError for a canceled worker or a hash failure |
| RegisterHandler.RegisterTwice | src/register_handler.rs:35-51 | a second registration of the same username fails with BadRequest whatever its password, and the first stored hash stays in place |
| Service.AuthService.Query | src/auth_handler.rs:73-91 | the imperative lookup-and-verify returns exactly what `AuthHandler.Query` gives on the current table: success iff the credentials match, otherwise Unauthorized |
| Service.AuthService.QueryUpdate | src/auth_handler.rs:93-119 | the result and the new `users` field are exactly `AuthHandler.QueryUpdate` of the old table; on failure the table is unchanged |
| Service.AuthService.QueryRegister | src/register_handler.rs:31-52 | the result and the new `users` field are exactly `RegisterHandler.Query` of the old table; on failure the table is unchanged |
| Service.AuthService.CreateUser | src/register_handler.rs:11-29 | the response and the new table and identity are exactly `RegisterHandler.CreateUser` of the old state; a failure changes neither field; success remembers the requested username |
| Service.AuthService.Login | src/auth_handler.rs:52-70 | the response and new identity are exactly `AuthHandler.Login` of the old state, and the table is outside the method's frame; a failure leaves identity as it was |
| Service.AuthService.Logout | src/auth_handler.rs:47-50 | always answers Ok and clears identity; the table is outside the method's frame |
| Service.AuthService.UpdatePassword | src/auth_handler.rs:18-45 | the response, table and identity are exactly `AuthHandler.UpdatePassword` of the old state; with no session it answers Unauthorized and changes nothing; after any failure the table is unchanged and identity is empty; success keeps the session user |
| Server.Serve | src/main.rs:51-60 | each route goes to its handler; no request deletes a user, a failed request leaves the table unchanged, login and logout never touch the table, and logout always succeeds and clears `identity` (the client is told to drop its cookie); a canceled call leaves the table unchanged, and a canceled register or login answers InternalServerError with the state unchanged; the dispatch of each route to its handler is fixed by the body and checked for uncanceled calls by `Server.PasswordChangeScenario`, not by this contract |
| Server.Run | src/main.rs:50-60 | serving a sequence of requests through the four routes gives one answer per request |
| Server.RunConcat | src/main.rs:51-60 | serving two sequences back to back gives the first's answers followed by the second's, the second starting from the state the first left |
| Server.ServeKeepsInvariant | src/main.rs:50-60 | every handler keeps the invariant: a remembered session names a stored user, and every stored password is an output of the hash primitive |
| Server.RunKeepsInvariant | src/main.rs:50-60 | any sequence of requests keeps that invariant |
| Server.ReachableStatesAreSound | src/main.rs:50-60 | starting from an empty table and no session, the invariant holds after any sequence of requests |
| Server.ServeRowChange | src/auth_handler.rs:104-110 | no request deletes a stored user; an existing row changes only through a successful update_password from that user's own session that verified the old password, and then it holds the hash of the new password |
| Server.RunKeepsUsers | src/main.rs:50-60 | over any sequence of requests the set of registered usernames only grows |
| Server.PasswordChangeScenario | src/main.rs:50-60 | register alice, log in, wrong password refused, change password, old password refused, new one accepted, and the session ends holding alice with the new hash stored, assuming the primitive round-trips both passwords and rejects the wrong ones |

## Left out

- Futures and `web::block` offloading to the thread pool are not modelled. Each handler is one
  sequential call. `BlockingError::Canceled` is the `canceled` argument, and a canceled query
  is taken not to have run. In the source, nothing after a table write can panic, so no
  partial write is lost.
- Diesel, SQLite and the r2d2 pool are replaced by the map. Database errors raised by `?`
  and the panic of `pool.get().unwrap()` are not modelled.
- `items.pop()` picks the last matching row. The model has at most one row per username,
  because username is the primary key: `users.find` on the session username targets it.
- The race between the existence check and the insert of two concurrent registrations is
  not modelled. It depends on the storage layer's uniqueness constraint.
- bcrypt (`easy_password`) is kept abstract in `Crypto`. Its random salt is folded into a
  hash that is a fixed function of the password. `verify(hash(p), p)` and non-forgeability
  are never proved; lemmas take them as explicit `requires` wherever they are needed.
- The `SECRET_KEY` environment variable and its fallback value are not modelled. They are
  process configuration, folded into `Crypto`.
- The JSON encoding of `SlimUser` into the identity string is not modelled. Identity holds
  the username directly. So the `unwrap()` of `serde_json::from_str` on a malformed identity
  cannot panic in the model.
- Cookie signing, tamper rejection, expiry (max-age of one day), name, path, domain and the
  secure flag are not modelled. The cookie library enforces them, and token round-trip and
  tamper resistance cannot be verified from these files.
- `src/errors.rs` is not part of this model. The HTTP status each `ServiceError` becomes
  is not modelled.
- The `/ping` route, logging and server setup in `src/main.rs` are not modelled, nor the
  `dbg!(err)` logging of library failures in `src/utils.rs:11` and `src/utils.rs:18`.
- The Diesel structs and `CreateUser::save` in `src/models.rs` are not modelled. The shown
  `models.rs` belongs to another revision: its `User` has an `id` column, while the handlers
  import `User` from it and build one without `id`. `SlimUser`
  is not in that file. A user is modelled only as username → hash.
- Sessions live only in the client's signed cookie. `id.forget()` asks the client to drop it,
  and no earlier cookie is revoked: after logout or a password change, a client that kept an
  older cookie is still recognised. `identity` is the cookie the client was last sent, and
  `Server.Run` assumes the client always sends that cookie back.
- `Server.Run` serves one client's session against the shared table. Several clients with
  separate cookies are not modelled.
