/**
 * Login, logout and password change: the table queries and the session-identity
 * transitions of the handlers that run them, as functions of the state a request sees.
 */
module AuthHandler {
  import opened Wrappers
  import opened Errors
  import opened Utils
  import opened Models

  /** A row for `username` exists and the primitive accepts `password` against its stored hash. */
  predicate Matches(c: Crypto, users: Table, username: string, password: string) {
    username in users && Accepts(c, password, users[username])
  }

  /**
   * The login query. It succeeds exactly when the stored row verifies the password,
   * returns the stored username, and answers an unknown username, a wrong password and
   * a verifier failure alike with Unauthorized. It never changes the table.
   */
  function Query(c: Crypto, users: Table, username: string, password: string): (r: Result<SlimUser, ServiceError>)
    ensures r.Success? <==> Matches(c, users, username, password)
    ensures r.Success? ==> username in users && r.value == SlimUser(username)
    ensures r.Failure? ==> r.error == Unauthorized
  {
    if username !in users then Failure(Unauthorized)
    else
      match Verify(c, users[username], password)
      case Success(matching) =>
        if matching then Success(SlimUser(username)) else Failure(Unauthorized)
      case Failure(_) => Failure(Unauthorized)
  }

  /**
   * The password-update query for the session's `username`. A missing row, a verifier
   * failure and a wrong old password all give BadRequest("Username not exist !"); a failure
   * hashing the new password is returned before anything is written. On success exactly the
   * row of `username` now holds the hash of the new password.
   */
  function QueryUpdate(c: Crypto, users: Table, username: string, oldPassword: string, newPassword: string): (o: Outcome)
    ensures !Matches(c, users, username, oldPassword) ==>
      o == Outcome(Failure(BadRequest(UsernameNotExist)), users)
    ensures Matches(c, users, username, oldPassword) && c.hashPassword(newPassword).None? ==>
      o == Outcome(Failure(InternalServerError), users)
    ensures o.result.Success? <==> Matches(c, users, username, oldPassword) && c.hashPassword(newPassword).Some?
    ensures o.result.Success? ==>
      && o.result.value == SlimUser(username)
      && username in o.users
      && Some(o.users[username]) == c.hashPassword(newPassword)
    ensures o.users.Keys == users.Keys
    ensures OtherRowsUnchanged(users, o.users, username)
  {
    if username in users && Verify(c, users[username], oldPassword) == Success(true) then
      match Hash(c, newPassword)
      case Failure(e) => Outcome(Failure(e), users)
      case Success(hashed) => Outcome(Success(SlimUser(username)), users[username := hashed])
    else
      Outcome(Failure(BadRequest(UsernameNotExist)), users)
  }

  /**
   * The login handler. On success the session remembers the user; on any failure, including
   * a canceled worker (InternalServerError), the session is left as it was. The table is never changed.
   */
  function Login(c: Crypto, s: State, username: string, password: string, canceled: bool): (t: Transition)
    ensures t.state.users == s.users
    ensures t.response.Success? <==> !canceled && Matches(c, s.users, username, password)
    ensures t.response.Success? ==> t.state.identity == Some(username)
    ensures t.response.Failure? ==>
      && t.state.identity == s.identity
      && t.response.error == (if canceled then InternalServerError else Unauthorized)
  {
    if canceled then Transition(Failure(InternalServerError), s)
    else
      match Query(c, s.users, username, password)
      case Success(user) => Transition(Success(()), State(s.users, Some(user.username)))
      case Failure(e) => Transition(Failure(e), s)
  }

  /** The logout handler: identity is cleared, whatever it held (the client is told to drop its cookie), and the answer is 200. */
  function Logout(s: State): (t: Transition)
    ensures t.response == Success(())
    ensures t.state.users == s.users && t.state.identity.None?
  {
    Transition(Success(()), State(s.users, None))
  }

  /**
   * The password-change handler. Without a session it answers Unauthorized and changes
   * nothing. Otherwise the session is forgotten before the query runs and is remembered
   * again only on success, so after any failure identity is empty (the client is told to drop its cookie).
   */
  function UpdatePassword(c: Crypto, s: State, oldPassword: string, newPassword: string, canceled: bool): (t: Transition)
    ensures s.identity.None? ==> t == Transition(Failure(Unauthorized), s)
    ensures s.identity.Some? && t.response.Failure? ==> t.state == State(s.users, None)
    ensures t.response.Success? <==>
      && s.identity.Some?
      && !canceled
      && Matches(c, s.users, s.identity.value, oldPassword)
      && c.hashPassword(newPassword).Some?
    ensures t.response.Success? ==>
      && t.state.identity == s.identity
      && t.state.users == s.users[s.identity.value := c.hashPassword(newPassword).value]
    ensures s.identity.Some? && canceled ==> t.response == Failure(InternalServerError)
    ensures s.identity.Some? && !canceled && !Matches(c, s.users, s.identity.value, oldPassword) ==>
      t.response == Failure(BadRequest(UsernameNotExist))
    ensures (s.identity.Some? && !canceled && Matches(c, s.users, s.identity.value, oldPassword)
             && c.hashPassword(newPassword).None?) ==>
      t.response == Failure(InternalServerError)
  {
    match s.identity
    case None => Transition(Failure(Unauthorized), s)
    case Some(name) =>
      if canceled then Transition(Failure(InternalServerError), State(s.users, None))
      else
        var o := QueryUpdate(c, s.users, name, oldPassword, newPassword);
        match o.result
        case Success(user) => Transition(Success(()), State(o.users, Some(user.username)))
        case Failure(e) => Transition(Failure(e), State(o.users, None))
  }

  /**
   * After a successful password change, logging in with the new password succeeds and with
   * the old one fails, provided the primitive round-trips the new password and rejects the
   * old one against the new hash (assumptions about bcrypt, not facts proved here).
   */
  lemma PasswordChangeTakesEffect(c: Crypto, s: State, oldPassword: string, newPassword: string)
    requires UpdatePassword(c, s, oldPassword, newPassword, false).response.Success?
    requires RoundTrips(c, newPassword)
    requires !Accepts(c, oldPassword, c.hashPassword(newPassword).value)
    ensures var after := UpdatePassword(c, s, oldPassword, newPassword, false).state;
      && Login(c, after, s.identity.value, newPassword, false).response.Success?
      && Login(c, after, s.identity.value, oldPassword, false).response == Failure(Unauthorized)
  {
    var after := UpdatePassword(c, s, oldPassword, newPassword, false).state;
    assert after.users[s.identity.value] == c.hashPassword(newPassword).value;
  }
}
