/** The service's error kinds, as far as the handlers raise them. */
module Errors {
  /** InternalServerError and Unauthorized carry nothing; BadRequest carries the message sent to the client. */
  datatype ServiceError = InternalServerError | BadRequest(message: string) | Unauthorized

  /** Message of a failed password update (any credential mismatch or a missing user). */
  const UsernameNotExist: string := "Username not exist !"

  /** Message of a registration for a username that is already taken. */
  const UsernameAlreadyExist: string := "Username already exist !"
}
