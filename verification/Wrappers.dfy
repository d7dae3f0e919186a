/** Results of operations that can fail, as the source's `Option` and `Result`. */
module Wrappers {
  datatype Option<+T> = None | Some(value: T)

  /** The error kinds of `CryptoError` and `P2pError` that the modelled code returns. */
  datatype Error =
    | Ratchet          // a chain is missing, a number is consumed, a skip is too long
    | KeyExchange      // X25519 gave the all-zero secret
    | Signature        // a bundle signature does not verify
    | Serialization    // malformed or truncated bytes
    | HeaderEncryption // no header key opens the header
    | Aead             // the body does not authenticate
    | Kem              // a KEM ciphertext has the wrong length
    | Ice              // a candidate line, a check or a session step is refused
    | Stun             // a malformed STUN message
    | Panic            // the code aborts (`expect` on an empty vector)

  datatype Result<+T> = Ok(value: T) | Err(error: Error)
}
