/**
 * The Cifrado pair, taken as an abstract cipher: a stored credential is a
 * blob, and decrypting what was encrypted gives back the plain text.
 */
module Cipher {

  /** An encrypted PIN, as an account stores it. */
  datatype Blob = Blob(sealed: string)

  function Encrypt(plain: string): (b: Blob)
    ensures Decrypt(b) == plain
  {
    Blob(plain)
  }

  function Decrypt(b: Blob): string
  {
    b.sealed
  }
}
