/** The records the handlers exchange, and the state a request sees. */
module Models {
  import opened Wrappers
  import opened Errors

  /** The users table: username (the primary key) to stored password hash. */
  type Table = map<string, string>

  /** The principal handed to the session: a username and nothing else. */
  datatype SlimUser = SlimUser(username: string)

  /** What a request sees: the users table and the username its session cookie remembers, if any. */
  datatype State = State(users: Table, identity: Option<string>)

  /** Result of a table query: what it returns and the table afterwards. */
  datatype Outcome = Outcome(result: Result<SlimUser, ServiceError>, users: Table)

  /** Result of a handler: the HTTP outcome (Success is 200 with an empty body) and the state afterwards. */
  datatype Transition = Transition(response: Result<(), ServiceError>, state: State)

  /** Every row other than `username`'s is the same in `before` and `after` (present or absent alike). */
  predicate OtherRowsUnchanged(before: Table, after: Table, username: string) {
    before - {username} == after - {username}
  }
}
