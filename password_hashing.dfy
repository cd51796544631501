/**
 * The one-way, salted password hash (`bcrypt.hash` / `bcrypt.compare`).
 * The hashing primitive itself is a parameter: any function from a salt and a
 * password to a digest. Only what the handlers rely on is modelled: a stored
 * hash is never the plain password (it has its own type), and a password
 * compares equal to the hash made from it.
 */
module PasswordHashing {

  /** The key-derivation primitive: (salt, password) to digest. */
  type Kdf = (nat, string) -> string

  /** What `bcrypt.hash` returns and the user record stores: the salt and the digest. */
  datatype PasswordHash = PasswordHash(salt: nat, digest: string)

  /** `bcrypt.hash(password, 10)` with the random salt drawn as `salt`. */
  function Hash(kdf: Kdf, password: string, salt: nat): (h: PasswordHash)
    ensures h.salt == salt
  {
    PasswordHash(salt, kdf(salt, password))
  }

  /** `bcrypt.compare(password, hash)`: recompute the digest with the stored salt. */
  predicate Compare(kdf: Kdf, password: string, h: PasswordHash)
    ensures Compare(kdf, password, h) <==> Hash(kdf, password, h.salt) == h
  {
    kdf(h.salt, password) == h.digest
  }

  /** A password always matches the hash made from it, whatever the salt. */
  lemma CompareHash(kdf: Kdf, password: string, salt: nat)
    ensures Compare(kdf, password, Hash(kdf, password, salt))
  {
  }
}
