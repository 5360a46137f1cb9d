/** The auth gate (backend/src/middleware/authMiddleware.ts): it reads the
    `Authorization` header, takes the bearer token out of it, verifies it and
    either attaches the user id and passes the request on, or answers 401.
    It never reads the user collection: nothing here takes a user table. */
module AuthGate {
  import opened Text
  import opened Http
  import Jwt

  const NoTokenMessage: string := "Unauthorized: No token provided"
  const InvalidTokenMessage: string := "Unauthorized: Invalid token"

  /** The prefix the gate demands, scheme and one space, matched case-sensitively. */
  const Scheme: string := "Bearer "

  /** The token of a header: `authHeader.split(" ")[1]` once the header is present
      and starts with "Bearer ". */
  function ExtractToken(header: Option<string>): (token: Option<string>)
    ensures token.None? <==> header.None? || !StartsWith(header.value, Scheme)
    ensures token.Some? ==> ' ' !in token.value
  {
    if header.None? || !StartsWith(header.value, Scheme) then None
    else
      assert header.value[6] == ' ';
      Some(Split(header.value, ' ')[1])
  }

  /** The token is the run of non-space characters right after "Bearer ". */
  lemma ExtractTokenIsSecondWord(header: string)
    requires StartsWith(header, Scheme)
    ensures var t := ExtractToken(Some(header)).value;
      && StartsWith(header[|Scheme|..], t)
      && (|Scheme| + |t| == |header| || header[|Scheme| + |t|] == ' ')
  {
    var h := header;
    assert h[..6] == "Bearer";
    assert h[6] == ' ';
    assert ' ' !in h[..6];
    IndexOfAfter(h[..6], ' ', h[7..]);
    assert h == h[..6] + [' '] + h[7..];
    var rest := h[7..];
    assert Split(h, ' ')[1] == Split(rest, ' ')[0];
    if ' ' in rest {
      var k := IndexOf(rest, ' ');
      assert Split(rest, ' ')[0] == rest[..k];
    }
  }

  datatype GateResult = Pass(userId: nat) | Reject(code: nat, message: string)

  /** The gate's verdict on a header: 401 "No token provided" before any
      verification when there is no bearer header, 401 "Invalid token" for
      any token the verifier refuses, the decoded user id otherwise. */
  function Gate(header: Option<string>, secret: nat): (g: GateResult)
    ensures g.Reject? ==> g.code == Unauthorized
    ensures ExtractToken(header).None? ==> g == Reject(Unauthorized, NoTokenMessage)
    ensures ExtractToken(header).Some? ==>
      (g.Pass? <==> Jwt.Verify(secret, ExtractToken(header).value).Valid?)
    ensures ExtractToken(header).Some? && g.Reject? ==> g.message == InvalidTokenMessage
    ensures g.Pass? ==> g.userId == Jwt.Verify(secret, ExtractToken(header).value).userId
  {
    var token := ExtractToken(header);
    if token.None? then Reject(Unauthorized, NoTokenMessage)
    else
      match Jwt.Verify(secret, token.value)
      case Valid(userId) => Pass(userId)
      case Invalid(_) => Reject(Unauthorized, InvalidTokenMessage)
  }

  /** The gate lets a user through only on a header carrying a token issued
      to that user under the gate's secret. */
  lemma GatePassesOnlyIssued(header: Option<string>, secret: nat, userId: nat)
    requires Gate(header, secret) == Pass(userId)
    ensures ExtractToken(header) == Some(Jwt.Issue(secret, userId))
  {
    Jwt.VerifySound(secret, ExtractToken(header).value);
  }

  /** The part of an Express request the gate reads and writes, and what it
      does to the response: `next()` calls are counted, a reply is recorded. */
  class AuthRequest {
    const authorization: Option<string>
    var userId: Option<nat>
    var nextCalls: nat
    var reply: Option<(nat, string)>

    constructor (authorization: Option<string>)
      ensures this.authorization == authorization
      ensures userId.None? && nextCalls == 0 && reply.None?
    {
      this.authorization := authorization;
      userId := None;
      nextCalls := 0;
      reply := None;
    }
  }

  /** authMiddleware: on a pass it sets userId and calls next exactly once;
      on a refusal it answers 401, leaves userId alone and does not call next. */
  method AuthMiddleware(req: AuthRequest, secret: nat)
    modifies req
    ensures Gate(req.authorization, secret).Pass? ==>
      && req.userId == Some(Gate(req.authorization, secret).userId)
      && req.nextCalls == old(req.nextCalls) + 1
      && req.reply == old(req.reply)
    ensures Gate(req.authorization, secret).Reject? ==>
      && req.userId == old(req.userId)
      && req.nextCalls == old(req.nextCalls)
      && req.reply == Some((Unauthorized, Gate(req.authorization, secret).message))
  {
    var token := ExtractToken(req.authorization);
    if token.None? {
      req.reply := Some((Unauthorized, NoTokenMessage));
      return;
    }
    match Jwt.Verify(secret, token.value)
    case Valid(userId) =>
      req.userId := Some(userId);
      req.nextCalls := req.nextCalls + 1;
    case Invalid(_) =>
      req.reply := Some((Unauthorized, InvalidTokenMessage));
  }
}
