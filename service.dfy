/**
 * The handlers as one object with the two pieces of state they change in place:
 * the users table and the username the session cookie remembers.
 * Each method is proved to produce exactly the transition its handler function describes.
 */
module Service {
  import opened Wrappers
  import opened Errors
  import opened Utils
  import opened Models
  import AuthHandler
  import RegisterHandler

  class AuthService {
    /** The users table: username to stored password hash. */
    var users: Table
    /** The username the session cookie remembers, if any. */
    var identity: Option<string>
    /** The password primitive, fixed for the life of the process. */
    const crypto: Crypto

    /** The state the next request sees. */
    function Snapshot(): (s: State)
      reads this
    {
      State(users, identity)
    }

    constructor (crypto: Crypto, users: Table, identity: Option<string>)
      ensures this.crypto == crypto && this.users == users && this.identity == identity
    {
      this.crypto := crypto;
      this.users := users;
      this.identity := identity;
    }

    /** The login query: looks up the row, verifies the password, and reads the table only. */
    method Query(username: string, password: string) returns (r: Result<SlimUser, ServiceError>)
      ensures r == AuthHandler.Query(crypto, users, username, password)
      ensures r.Success? <==> AuthHandler.Matches(crypto, users, username, password)
      ensures r.Failure? ==> r.error == Unauthorized
    {
      r := Failure(Unauthorized);
      if username in users {
        var matching := Verify(crypto, users[username], password);
        if matching == Success(true) {
          r := Success(SlimUser(username));
        }
      }
    }

    /** The password-update query for `username`: verifies the old password, then rewrites that one row. */
    method QueryUpdate(username: string, oldPassword: string, newPassword: string) returns (r: Result<SlimUser, ServiceError>)
      modifies this`users
      ensures Outcome(r, users) == AuthHandler.QueryUpdate(crypto, old(users), username, oldPassword, newPassword)
      ensures r.Failure? ==> users == old(users)
    {
      if username in users {
        var matching := Verify(crypto, users[username], oldPassword);
        if matching == Success(true) {
          var hashed := Hash(crypto, newPassword);
          if hashed.Failure? {
            return Failure(hashed.error);
          }
          users := users[username := hashed.value];
          return Success(SlimUser(username));
        }
      }
      r := Failure(BadRequest(UsernameNotExist));
    }

    /** The registration query: existence check, hash, then insert of one row. */
    method QueryRegister(username: string, password: string) returns (r: Result<SlimUser, ServiceError>)
      modifies this`users
      ensures Outcome(r, users) == RegisterHandler.Query(crypto, old(users), username, password)
      ensures r.Failure? ==> users == old(users)
    {
      if username in users {
        return Failure(BadRequest(UsernameAlreadyExist));
      }
      var hashed := Hash(crypto, password);
      if hashed.Failure? {
        return Failure(hashed.error);
      }
      users := users[username := hashed.value];
      r := Success(SlimUser(username));
    }

    /** The registration handler; `canceled` is the worker pool dropping the blocking call. */
    method CreateUser(username: string, password: string, canceled: bool) returns (r: Result<(), ServiceError>)
      modifies this
      ensures Transition(r, Snapshot()) == RegisterHandler.CreateUser(crypto, old(Snapshot()), username, password, canceled)
      ensures r.Failure? ==> users == old(users) && identity == old(identity)
      ensures r.Success? ==> identity == Some(username)
    {
      if canceled {
        return Failure(InternalServerError);
      }
      var res := QueryRegister(username, password);
      match res
      case Success(user) =>
        identity := Some(user.username);
        r := Success(());
      case Failure(e) =>
        r := Failure(e);
    }

    /** The login handler: remembers the user on success, leaves the session alone otherwise. */
    method Login(username: string, password: string, canceled: bool) returns (r: Result<(), ServiceError>)
      modifies this`identity
      ensures Transition(r, Snapshot()) == AuthHandler.Login(crypto, old(Snapshot()), username, password, canceled)
      ensures r.Failure? ==> identity == old(identity)
      ensures r.Success? ==> identity == Some(username)
    {
      if canceled {
        return Failure(InternalServerError);
      }
      var res := Query(username, password);
      match res
      case Success(user) =>
        identity := Some(user.username);
        r := Success(());
      case Failure(e) =>
        r := Failure(e);
    }

    /** The logout handler: clears identity unconditionally and answers 200. */
    method Logout() returns (r: Result<(), ServiceError>)
      modifies this`identity
      ensures r == Success(()) && identity == None
      ensures Transition(r, Snapshot()) == AuthHandler.Logout(old(Snapshot()))
    {
      identity := None;
      r := Success(());
    }

    /**
     * The password-change handler. With no session it answers Unauthorized and touches nothing;
     * otherwise it forgets the session first and remembers the user again only on success.
     */
    method UpdatePassword(oldPassword: string, newPassword: string, canceled: bool) returns (r: Result<(), ServiceError>)
      modifies this
      ensures Transition(r, Snapshot()) == AuthHandler.UpdatePassword(crypto, old(Snapshot()), oldPassword, newPassword, canceled)
      ensures old(identity).None? ==> r == Failure(Unauthorized) && users == old(users) && identity == None
      ensures r.Failure? ==> users == old(users) && identity == None
      ensures r.Success? ==> identity == old(identity)
    {
      match identity
      case None =>
        r := Failure(Unauthorized);
      case Some(name) =>
        identity := None;
        if canceled {
          return Failure(InternalServerError);
        }
        var res := QueryUpdate(name, oldPassword, newPassword);
        match res
        case Success(user) =>
          identity := Some(user.username);
          r := Success(());
        case Failure(e) =>
          r := Failure(e);
    }
  }
}
