/**
 * The password hasher (bcryptjs in backend/server.js). A digest is modelled as
 * an ideal salted hash: it records what it was computed from, so that it
 * verifies for exactly one password, whatever the salt.
 */
module Passwords {

  /** `bcrypt.hash(password, 10)`: the result of hashing `preimage` with a random `salt`. */
  datatype Digest = Digest(preimage: string, salt: nat)

  /** `bcrypt.compare(password, digest)`. */
  predicate Compare(password: string, digest: Digest) {
    digest.preimage == password
  }

  /** `bcrypt.hash(password, 10)` with the random salt given as a parameter; the cost factor does not change what verifies. */
  function Hash(password: string, salt: nat): (d: Digest)
    ensures Compare(password, d)
    ensures forall other :: other != password ==> !Compare(other, d)
  {
    Digest(password, salt)
  }

  /** Different salts give different digests, and every one of them verifies. */
  lemma SaltedDigestsDifferButVerify(password: string, s1: nat, s2: nat)
    requires s1 != s2
    ensures Hash(password, s1) != Hash(password, s2)
    ensures Compare(password, Hash(password, s1)) && Compare(password, Hash(password, s2))
  {
  }
}
