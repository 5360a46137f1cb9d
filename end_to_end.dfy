/** How the pieces meet: the header the client's request interceptor builds
    passes the server's auth gate, and a token from register or login comes
    back through the gate as the user it was issued to. */
module EndToEnd {
  import opened Text
  import Jwt
  import AuthGate
  import ApiClient

  /** For a token with no spaces, the header built by the interceptor passes
      the gate's prefix check and parses back to the same token. */
  lemma {:induction false} BearerHeaderRoundTrip(token: string)
    requires ' ' !in token
    ensures AuthGate.ExtractToken(Some(ApiClient.BearerHeader(token))) == Some(token)
  {
    var h := ApiClient.BearerHeader(token);
    assert h[..7] == AuthGate.Scheme;
    assert h == "Bearer" + [' '] + token;
    SplitPair("Bearer", ' ', token);
  }

  /** A token the server issued, stored by the client and sent back in the
      bearer header, lets the request through as the user it was issued to. */
  lemma IssuedTokenPassesGate(secret: nat, userId: nat)
    ensures AuthGate.Gate(Some(ApiClient.BearerHeader(Jwt.Issue(secret, userId))), secret) == AuthGate.Pass(userId)
  {
    BearerHeaderRoundTrip(Jwt.Issue(secret, userId));
    Jwt.VerifyIssue(secret, userId);
  }

  /** The same token under a server with another secret is refused with the
      invalid-token 401, never with a user id. */
  lemma ForeignTokenRefused(signer: nat, secret: nat, userId: nat)
    requires signer != secret
    ensures AuthGate.Gate(Some(ApiClient.BearerHeader(Jwt.Issue(signer, userId))), secret)
         == AuthGate.Reject(401, AuthGate.InvalidTokenMessage)
  {
    BearerHeaderRoundTrip(Jwt.Issue(signer, userId));
    Jwt.VerifyOtherSecret(signer, secret, userId);
  }
}
