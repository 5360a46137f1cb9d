/** The password hasher behind `bcrypt.genSalt(10)`, `bcrypt.hash` and
    `bcrypt.compare`. A hash is modelled symbolically as the bcrypt version
    and cost prefix, the salt and the digest of the plaintext; the salt comes
    from the caller (randomness is a parameter). The model is not one-way:
    only the comparisons the application relies on are stated. */
module Bcrypt {
  import opened Text

  /** Version 2a, cost factor 10 (`genSalt(10)`). */
  const Prefix: string := "$2a$10$"

  /** `bcrypt.hash(plaintext, salt)`. */
  function Hash(salt: nat, plaintext: string): string {
    Prefix + Show(salt) + "$" + plaintext
  }

  /** The salt text and digest a stored hash is made of, if it is well formed. */
  function Unpack(hash: string): Option<(string, string)> {
    if !StartsWith(hash, Prefix) then None
    else
      var rest := hash[|Prefix|..];
      if '$' !in rest then None
      else
        var k := IndexOf(rest, '$');
        if k == 0 || !AllDigits(rest[..k]) then None else Some((rest[..k], rest[k + 1..]))
  }

  predicate IsHash(hash: string) {
    Unpack(hash).Some?
  }

  /** `bcrypt.compare(plaintext, hash)`: a malformed hash never matches. */
  predicate Compare(plaintext: string, hash: string) {
    var parts := Unpack(hash);
    parts.Some? && parts.value.1 == plaintext
  }

  lemma UnpackHash(salt: nat, plaintext: string)
    ensures Unpack(Hash(salt, plaintext)) == Some((Show(salt), plaintext))
  {
    var h := Hash(salt, plaintext);
    var s := Show(salt);
    assert h[..|Prefix|] == Prefix;
    var rest := h[|Prefix|..];
    assert rest == s + "$" + plaintext;
    NotInDigits(s, '$');
    IndexOfAfter(s, '$', plaintext);
    assert rest[..|s|] == s;
    assert rest[|s| + 1..] == plaintext;
  }

  /** Every hash the hasher produces is well formed. */
  lemma HashIsHash(salt: nat, plaintext: string)
    ensures IsHash(Hash(salt, plaintext))
  {
    UnpackHash(salt, plaintext);
  }

  /** A hash matches exactly the plaintext it was made from. */
  lemma CompareHash(salt: nat, plaintext: string, entered: string)
    ensures Compare(entered, Hash(salt, plaintext)) <==> entered == plaintext
  {
    UnpackHash(salt, plaintext);
  }

  /** Fresh salts give different hashes of the same plaintext. */
  lemma SaltFresh(salt1: nat, salt2: nat, plaintext: string)
    requires salt1 != salt2
    ensures Hash(salt1, plaintext) != Hash(salt2, plaintext)
  {
    UnpackHash(salt1, plaintext);
    UnpackHash(salt2, plaintext);
    ShowInjective(salt1, salt2);
  }
}
