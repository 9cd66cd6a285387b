/** The password primitive and the mapping of its failures to service errors. */
module Utils {
  import opened Wrappers
  import opened Errors

  /**
   * The keyed bcrypt primitive, left uninterpreted. `hashPassword(password)` is the library's
   * hash of `password` under the process secret at cost 12; `verifyPassword(password, hash)`
   * says whether `password` matches `hash`. `None` stands for a library error.
   */
  datatype Crypto = Crypto(hashPassword: string -> Option<string>, verifyPassword: (string, string) -> Option<bool>)

  /** The primitive accepts `password` against `hash`. */
  predicate Accepts(c: Crypto, password: string, hash: string) {
    c.verifyPassword(password, hash) == Some(true)
  }

  /** An assumption about the primitive, never a theorem here: hashing `password` works and the hash verifies it. */
  predicate RoundTrips(c: Crypto, password: string) {
    c.hashPassword(password).Some? && Accepts(c, password, c.hashPassword(password).value)
  }

  /** Hashes a password; a library failure becomes InternalServerError and never yields a usable hash. */
  function Hash(c: Crypto, password: string): (r: Result<string, ServiceError>)
    ensures r.Success? <==> c.hashPassword(password).Some?
    ensures r.Success? ==> Some(r.value) == c.hashPassword(password)
    ensures r.Failure? ==> r.error == InternalServerError
  {
    match c.hashPassword(password)
    case Some(h) => Success(h)
    case None => Failure(InternalServerError)
  }

  /** Checks `password` against a stored `hash`; a library failure becomes Unauthorized, distinct from a mismatch. */
  function Verify(c: Crypto, hash: string, password: string): (r: Result<bool, ServiceError>)
    ensures r.Success? <==> c.verifyPassword(password, hash).Some?
    ensures r == Success(true) <==> Accepts(c, password, hash)
    ensures r.Failure? ==> r.error == Unauthorized
  {
    match c.verifyPassword(password, hash)
    case Some(matching) => Success(matching)
    case None => Failure(Unauthorized)
  }
}
