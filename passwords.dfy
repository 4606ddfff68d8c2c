/**
 * The password hasher (bcryptjs), kept abstract: a salted one-way hash and
 * the comparison that checks a plaintext against a stored digest.
 */
module Passwords {

  /** The work factor the server passes to every `hash` call. */
  const SaltRounds: nat := 10

  /** The random salt drawn by one `hash` call. */
  type Salt = nat

  /** `hash(password, rounds, salt)` gives the digest string that is stored;
      `compare(password, digest)` says whether the password produced it. */
  datatype Hasher = Hasher(hash: (string, nat, Salt) -> string, compare: (string, string) -> bool)

  /** A sound hasher accepts every password against every digest made from it,
      whatever the salt. */
  ghost predicate Sound(h: Hasher)
  {
    forall p, rounds, salt :: h.compare(p, h.hash(p, rounds, salt))
  }
}
