/** Registration: the existence check and insert, and the handler that starts a session on success. */
module RegisterHandler {
  import opened Wrappers
  import opened Errors
  import opened Utils
  import opened Models

  /**
   * The registration query. A taken username gives BadRequest("Username already exist !");
   * a hashing failure is returned before the insert; either way the table is unchanged.
   * Otherwise exactly one row is added, holding the primitive's hash of the password, and
   * the returned principal carries only the requested username.
   */
  function Query(c: Crypto, users: Table, username: string, password: string): (o: Outcome)
    ensures username in users ==> o == Outcome(Failure(BadRequest(UsernameAlreadyExist)), users)
    ensures username !in users && c.hashPassword(password).None? ==> o == Outcome(Failure(InternalServerError), users)
    ensures o.result.Success? <==> username !in users && c.hashPassword(password).Some?
    ensures o.result.Success? ==>
      && o.result.value == SlimUser(username)
      && o.users.Keys == users.Keys + {username}
      && Some(o.users[username]) == c.hashPassword(password)
    ensures OtherRowsUnchanged(users, o.users, username)
  {
    if username in users then Outcome(Failure(BadRequest(UsernameAlreadyExist)), users)
    else
      match Hash(c, password)
      case Failure(e) => Outcome(Failure(e), users)
      case Success(hashed) => Outcome(Success(SlimUser(username)), users[username := hashed])
  }

  /**
   * The registration handler. On success the session remembers the new user; on any
   * failure, a canceled worker included (InternalServerError), state is left as it was.
   */
  function CreateUser(c: Crypto, s: State, username: string, password: string, canceled: bool): (t: Transition)
    ensures t.response.Success? <==> !canceled && username !in s.users && c.hashPassword(password).Some?
    ensures t.response.Success? ==>
      t.state == State(s.users[username := c.hashPassword(password).value], Some(username))
    ensures t.response.Failure? ==> t.state == s
    ensures t.response.Failure? ==>
      t.response.error == (if canceled || username !in s.users then InternalServerError else BadRequest(UsernameAlreadyExist))
  {
    if canceled then Transition(Failure(InternalServerError), s)
    else
      var o := Query(c, s.users, username, password);
      match o.result
      case Success(user) => Transition(Success(()), State(o.users, Some(user.username)))
      case Failure(e) => Transition(Failure(e), s)
  }

  /**
   * Registering a username a second time fails with BadRequest, whatever the second password,
   * and leaves the table, and so the first stored hash, unchanged.
   */
  lemma RegisterTwice(c: Crypto, s: State, username: string, first: string, second: string)
    requires CreateUser(c, s, username, first, false).response.Success?
    ensures var s1 := CreateUser(c, s, username, first, false).state;
      var t2 := CreateUser(c, s1, username, second, false);
      && t2.response == Failure(BadRequest(UsernameAlreadyExist))
      && t2.state.users == s1.users
      && Some(t2.state.users[username]) == c.hashPassword(first)
  {
  }
}
