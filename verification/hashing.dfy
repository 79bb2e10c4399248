/**
 * Password and security-answer digests. The salted, slow key derivation of the
 * real hasher is abstracted to a digest that remembers which secret it was made from.
 */
module Hashing {

  datatype Digest = Digest(secret: string)

  /** Checking a plaintext against a digest. */
  predicate Verify(plain: string, d: Digest)
  {
    d.secret == plain
  }

  /** Hashing a secret: the digest verifies against that secret and no other. */
  function Hash(plain: string): (d: Digest)
    ensures Verify(plain, d)
    ensures forall other :: Verify(other, d) ==> other == plain
  {
    Digest(plain)
  }
}
