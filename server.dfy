/**
 * The four routes served to one client, applied one request after another to the shared
 * users table and that client's session, and what holds along any such sequence.
 */
module Server {
  import opened Wrappers
  import opened Errors
  import opened Utils
  import opened Models
  import AuthHandler
  import RegisterHandler

  /** The request bodies of POST /register, POST /login, GET /logout and POST /update_password. */
  datatype Request =
    | Register(username: string, password: string)
    | Login(username: string, password: string)
    | Logout
    | UpdatePassword(oldPassword: string, newPassword: string)

  /** One request, and whether the worker pool canceled its blocking call. */
  datatype Call = Call(request: Request, canceled: bool)

  /** The answers to a sequence of calls, in order, and the state after the last one. */
  datatype Trace = Trace(responses: seq<Result<(), ServiceError>>, last: State)

  /** A fresh server: an empty users table and a client without a session cookie. */
  const Init: State := State(map[], None)

  /**
   * Dispatches one call to its handler. No request deletes a user, a failed request leaves
   * the table as it was, login and logout never touch the table, and logout always
   * succeeds and clears identity (the client is told to drop its cookie).
   */
  function Serve(c: Crypto, s: State, call: Call): (t: Transition)
    ensures s.users.Keys <= t.state.users.Keys
    ensures t.response.Failure? ==> t.state.users == s.users
    ensures call.request.Login? || call.request.Logout? ==> t.state.users == s.users
    ensures call.request.Logout? ==> t.response == Success(()) && t.state.identity.None?
    ensures call.canceled ==> t.state.users == s.users
    ensures call.canceled && (call.request.Register? || call.request.Login?) ==>
      t == Transition(Failure(InternalServerError), s)
  {
    match call.request
    case Register(username, password) => RegisterHandler.CreateUser(c, s, username, password, call.canceled)
    case Login(username, password) => AuthHandler.Login(c, s, username, password, call.canceled)
    case Logout => AuthHandler.Logout(s)
    case UpdatePassword(oldPassword, newPassword) =>
      AuthHandler.UpdatePassword(c, s, oldPassword, newPassword, call.canceled)
  }

  /** Serves `calls` in order from `s`; there is one answer per call. */
  function Run(c: Crypto, s: State, calls: seq<Call>): (t: Trace)
    ensures |t.responses| == |calls|
    decreases |calls|
  {
    if calls == [] then Trace([], s)
    else
      var step := Serve(c, s, calls[0]);
      var rest := Run(c, step.state, calls[1..]);
      Trace([step.response] + rest.responses, rest.last)
  }

  /**
   * Serving `first` and then `second` is serving them one after the other: the answers
   * concatenate, and `second` starts from the state `first` left.
   */
  lemma {:induction false} RunConcat(c: Crypto, s: State, first: seq<Call>, second: seq<Call>)
    ensures var whole := Run(c, s, first + second);
      var mid := Run(c, s, first);
      var rest := Run(c, mid.last, second);
      && whole.responses == mid.responses + rest.responses
      && whole.last == rest.last
    decreases |first|
  {
    if first == [] {
      assert first + second == second;
    } else {
      assert (first + second)[0] == first[0];
      assert (first + second)[1..] == first[1..] + second;
      RunConcat(c, Serve(c, s, first[0]).state, first[1..], second);
    }
  }

  /** `h` is something the hash primitive produces for some password. */
  ghost predicate IsHashOutput(c: Crypto, h: string) {
    exists password :: c.hashPassword(password) == Some(h)
  }

  /**
   * What every request keeps: a remembered session names a stored user, and every stored
   * password is an output of the hash primitive, never a plaintext taken from a request.
   */
  ghost predicate Invariant(c: Crypto, s: State) {
    && (s.identity.Some? ==> s.identity.value in s.users)
    && forall u :: u in s.users ==> IsHashOutput(c, s.users[u])
  }

  /** Each handler keeps the invariant. */
  lemma ServeKeepsInvariant(c: Crypto, s: State, call: Call)
    requires Invariant(c, s)
    ensures Invariant(c, Serve(c, s, call).state)
  {
    var t := Serve(c, s, call);
    match call.request
    case Register(username, password) =>
      if t.response.Success? {
        assert c.hashPassword(password) == Some(t.state.users[username]);
      }
    case Login(username, password) =>
    case Logout =>
    case UpdatePassword(oldPassword, newPassword) =>
      if t.response.Success? {
        assert c.hashPassword(newPassword) == Some(t.state.users[s.identity.value]);
      }
  }

  /** Any sequence of requests keeps the invariant. */
  lemma {:induction false} RunKeepsInvariant(c: Crypto, s: State, calls: seq<Call>)
    requires Invariant(c, s)
    ensures Invariant(c, Run(c, s, calls).last)
    decreases |calls|
  {
    if calls != [] {
      ServeKeepsInvariant(c, s, calls[0]);
      RunKeepsInvariant(c, Serve(c, s, calls[0]).state, calls[1..]);
    }
  }

  /** From a fresh server, the invariant holds after any sequence of requests. */
  lemma ReachableStatesAreSound(c: Crypto, calls: seq<Call>)
    ensures Invariant(c, Run(c, Init, calls).last)
  {
    RunKeepsInvariant(c, Init, calls);
  }

  /**
   * No handler deletes a row, and a row that exists changes only through a successful
   * password change from that user's own session with the correct old password.
   */
  lemma ServeRowChange(c: Crypto, s: State, call: Call, u: string)
    requires u in s.users
    ensures u in Serve(c, s, call).state.users
    ensures Serve(c, s, call).state.users[u] != s.users[u] ==>
      && call.request.UpdatePassword?
      && s.identity == Some(u)
      && AuthHandler.Matches(c, s.users, u, call.request.oldPassword)
      && Some(Serve(c, s, call).state.users[u]) == c.hashPassword(call.request.newPassword)
  {
  }

  /** Over any sequence of requests the set of registered usernames only grows. */
  lemma {:induction false} RunKeepsUsers(c: Crypto, s: State, calls: seq<Call>)
    ensures s.users.Keys <= Run(c, s, calls).last.users.Keys
    decreases |calls|
  {
    if calls != [] {
      RunKeepsUsers(c, Serve(c, s, calls[0]).state, calls[1..]);
    }
  }

  /**
   * Register alice, log in, fail with a wrong password, change the password, then the old
   * password is refused and the new one accepted. The assumptions about the primitive are
   * stated as requirements: both passwords round-trip, and neither the wrong password nor
   * the old one verifies against a hash it was not made from.
   */
  lemma PasswordChangeScenario(c: Crypto)
    requires RoundTrips(c, "correct-horse") && RoundTrips(c, "batt3ry")
    requires !Accepts(c, "wrong", c.hashPassword("correct-horse").value)
    requires !Accepts(c, "correct-horse", c.hashPassword("batt3ry").value)
    ensures Run(c, Init, [
      Call(Register("alice", "correct-horse"), false),
      Call(Login("alice", "correct-horse"), false),
      Call(Login("alice", "wrong"), false),
      Call(UpdatePassword("correct-horse", "batt3ry"), false),
      Call(Login("alice", "correct-horse"), false),
      Call(Login("alice", "batt3ry"), false)
    ]) == Trace([
      Success(()), Success(()), Failure(Unauthorized), Success(()), Failure(Unauthorized), Success(())
    ], State(map["alice" := c.hashPassword("batt3ry").value], Some("alice")))
  {
    var h1 := c.hashPassword("correct-horse").value;
    var h2 := c.hashPassword("batt3ry").value;
    var s1 := State(map["alice" := h1], Some("alice"));
    var s4 := State(map["alice" := h2], Some("alice"));
    var calls := [
      Call(Register("alice", "correct-horse"), false),
      Call(Login("alice", "correct-horse"), false),
      Call(Login("alice", "wrong"), false),
      Call(UpdatePassword("correct-horse", "batt3ry"), false),
      Call(Login("alice", "correct-horse"), false),
      Call(Login("alice", "batt3ry"), false)
    ];
    assert Serve(c, Init, calls[0]) == Transition(Success(()), s1);
    assert Serve(c, s1, calls[1]) == Transition(Success(()), s1);
    assert Serve(c, s1, calls[2]) == Transition(Failure(Unauthorized), s1);
    assert Serve(c, s1, calls[3]) == Transition(Success(()), s4);
    assert Serve(c, s4, calls[4]) == Transition(Failure(Unauthorized), s4);
    assert Serve(c, s4, calls[5]) == Transition(Success(()), s4);
    assert Run(c, s4, calls[5..]) == Trace([Success(())], s4);
    assert Run(c, s4, calls[4..]) == Trace([Failure(Unauthorized), Success(())], s4);
    assert Run(c, s1, calls[3..]) == Trace([Success(()), Failure(Unauthorized), Success(())], s4);
    assert Run(c, s1, calls[2..]) == Trace([Failure(Unauthorized), Success(()), Failure(Unauthorized), Success(())], s4);
    assert Run(c, s1, calls[1..]) ==
      Trace([Success(()), Failure(Unauthorized), Success(()), Failure(Unauthorized), Success(())], s4);
  }
}
