/**
 * The password hasher used by the credential record: `hash(raw)` and
 * `verify(raw, hash)`. The hash is a stand-in: a salted digest that embeds
 * its own salt, so that verification needs nothing but the digest and the
 * candidate password. One-wayness and the work factor are not modelled.
 */
module Password {

  /** A stored password hash: the salt it was made with and the salted material. */
  datatype Digest = Digest(salt: string, material: string)

  /** Hashes `raw` under `salt` (the salt comes from the random source). */
  function Hash(raw: string, salt: string): (d: Digest)
    ensures d.salt == salt
  {
    Digest(salt, salt + raw)
  }

  /** True exactly when `d` is the hash of `raw` under the salt `d` carries. */
  predicate Verify(d: Digest, raw: string): (ok: bool)
    ensures ok <==> d == Hash(raw, d.salt)
  {
    d.material == d.salt + raw
  }

  /** `verify(hash(p), p)` holds for every password and salt. */
  lemma HashThenVerify(raw: string, salt: string)
    ensures Verify(Hash(raw, salt), raw)
  {
  }

  /** A digest accepts exactly the password it was made from. */
  lemma VerifyOnlyOriginal(raw: string, other: string, salt: string)
    ensures Verify(Hash(raw, salt), other) <==> other == raw
  {
    if Verify(Hash(raw, salt), other) {
      var m := salt + raw;
      assert m == salt + other;
      assert raw == m[|salt|..] == other;
    }
  }
}
