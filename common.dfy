/** Shared value types: optional values, results with the handlers' exceptions, bytes. */
module Common {

  /** `T | null` / `T | undefined` in the source. */
  datatype Option<+T> = None | Some(value: T)

  /** A handler's outcome: a value, or the exception it throws. */
  datatype Result<+T, +E> = Ok(value: T) | Err(error: E)

  /** An element of a `Uint8Array`. */
  newtype byte = x: int | 0 <= x < 256

  /** The exceptions thrown by the modelled handlers. */
  datatype Error =
    | Unauthorized      // verifyAuth: no session for the token ("Unauthorized")
    | NullUser          // the session's user row is gone: reading `auth.user._id` of null
    | SecretNotSet      // "API_KEY_ENCRYPTION_SECRET environment variable not set"
    | MalformedBase64   // atob rejects the stored text
    | DecryptionFailed  // AES-GCM authentication fails on the stored bytes
    | DocumentNotFound  // db.patch on an id that names no document
    | NoResponse        // "No response from Groq"
}
