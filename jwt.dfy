/** The token service behind `generateToken` and `jwt.verify`: a token binds
    exactly one user id and is accepted only under the secret that signed it.
    Signing is modelled symbolically (the secret's rendering, a dot, the user
    id's rendering); the cryptography and the expiry are not modelled. */
module Jwt {
  import opened Text

  /** Why `jwt.verify` throws; both reach the HTTP boundary as one 401. */
  datatype TokenError = Malformed | BadSignature

  datatype Verified = Valid(userId: nat) | Invalid(error: TokenError)

  /** `generateToken(userId)` signed with `secret` (JWT_SECRET). */
  function Issue(secret: nat, userId: nat): (token: string)
    ensures token != [] && ' ' !in token
  {
    var t := Show(secret) + "." + Show(userId);
    assert forall i :: 0 <= i < |t| ==> t[i] != ' ' by {
      forall i | 0 <= i < |t| ensures t[i] != ' ' {
        if i < |Show(secret)| { assert t[i] == Show(secret)[i]; }
        else if i > |Show(secret)| { assert t[i] == Show(userId)[i - |Show(secret)| - 1]; }
      }
    }
    t
  }

  /** `jwt.verify(token, secret)`: the user id the token carries, or why it is refused. */
  function Verify(secret: nat, token: string): (v: Verified)
    ensures '.' !in token ==> v == Invalid(Malformed)
    ensures v.Valid? ==>
      && '.' in token
      && token[..IndexOf(token, '.')] == Show(secret)
      && token[IndexOf(token, '.') + 1..] == Show(v.userId)
    ensures v == Invalid(BadSignature) ==> '.' in token && token[..IndexOf(token, '.')] != Show(secret)
  {
    if '.' !in token then Invalid(Malformed)
    else
      var k := IndexOf(token, '.');
      var payload := token[k + 1..];
      if !IsCanonical(payload) then Invalid(Malformed)
      else if token[..k] != Show(secret) then Invalid(BadSignature)
      else Valid(Parse(payload))
  }

  /** A freshly issued token verifies to the user it was issued for. */
  lemma VerifyIssue(secret: nat, userId: nat)
    ensures Verify(secret, Issue(secret, userId)) == Valid(userId)
  {
    var head, payload := Show(secret), Show(userId);
    var t := Issue(secret, userId);
    NotInDigits(Show(secret), '.');
    IndexOfAfter(head, '.', payload);
    assert t[..|head|] == head;
    assert t[|head| + 1..] == payload;
    ParseShow(userId);
  }

  /** A token signed with another secret is refused as a bad signature. */
  lemma VerifyOtherSecret(signer: nat, secret: nat, userId: nat)
    requires signer != secret
    ensures Verify(secret, Issue(signer, userId)) == Invalid(BadSignature)
  {
    var head, payload := Show(signer), Show(userId);
    var t := Issue(signer, userId);
    NotInDigits(Show(signer), '.');
    IndexOfAfter(head, '.', payload);
    assert t[..|head|] == head;
    assert t[|head| + 1..] == payload;
    ParseShow(userId);
    ShowInjective(signer, secret);
  }

  /** Only issued tokens verify: a token accepted for user u under a secret is
      exactly the token issued to u under that secret. */
  lemma VerifySound(secret: nat, token: string)
    requires Verify(secret, token).Valid?
    ensures token == Issue(secret, Verify(secret, token).userId)
  {
    var k := IndexOf(token, '.');
    var payload := token[k + 1..];
    assert token == token[..k] + "." + payload;
  }
}
