/** Optional values, results and the failures the authentication service reports.
    Each constructor of Error stands for one error value the Go code builds. */
module Outcomes {

  datatype Option<+T> = None | Some(value: T)

  /** Why the session-token library or the token decoder rejected a token. */
  datatype TokenError =
    /** The compact form does not have exactly three segments, or a segment does not decode. */
    | Malformed
    /** The header names an algorithm the library has no signing method for. */
    | SigningMethodUnavailable
    /** Claims validation and/or signature verification failed (at least one flag is set). */
    | ValidationFailed(claimsInvalid: bool, signatureInvalid: bool)
    /** "failed to verify token": the parse succeeded but the token is not valid or not HS256. */
    | FailedToVerify

  datatype Error =
    /** "couldn't find email" */
    | CouldNotFindEmail
    /** "couldn't find token" */
    | CouldNotFindToken
    /** "couldn't find uuid" */
    | CouldNotFindUuid
    /** "couldn't find users" */
    | CouldNotFindUsers
    /** "user already has a password set" */
    | AlreadyHasPassword
    /** "user is not invited by any organizations" */
    | NotInvited
    /** the password hasher refused to produce a hash */
    | HashingFailed
    /** "incorrect password, ..." */
    | IncorrectPassword
    /** a session token was rejected */
    | InvalidToken(cause: TokenError)

  datatype Result<+T> = Ok(value: T) | Err(error: Error)
}
