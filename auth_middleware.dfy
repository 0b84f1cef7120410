/** The `protect` middleware: it reads the `Authorization` header, strips a
    `Bearer ` prefix, verifies the token, and either stores the token's user id
    on the request and passes it on, or answers 401. Signature checking
    (`jwt.verify` with the server's secret) is a parameter: it either decodes
    the token to its payload or rejects it. */
module AuthMiddleware {
  import opened Common
  import opened Json

  const BearerPrefix := "Bearer "

  const NoTokenMessage := "No token provided, authorization denied"
  const InvalidTokenMessage := "Token is not valid or has expired"

  /** The token in a header: after an exact `Bearer ` prefix, the rest without
      its leading whitespace; any other header is taken whole. */
  function ExtractToken(header: string): (token: string)
    ensures !StartsWith(header, BearerPrefix) ==> token == header
    ensures StartsWith(header, BearerPrefix) ==>
      && |token| <= |header| - |BearerPrefix|
      && token == header[|header| - |token|..]
      && (token == [] || !IsJsWhitespace(token[0]))
      && forall i :: |BearerPrefix| <= i < |header| - |token| ==> IsJsWhitespace(header[i])
  {
    if StartsWith(header, BearerPrefix) then TrimStart(header[|BearerPrefix|..]) else header
  }

  /** Whitespace in front of a token that does not start with whitespace is all
      `trimStart` removes. */
  lemma {:induction false} TrimStartSkips(spaces: string, token: string)
    requires forall i :: 0 <= i < |spaces| ==> IsJsWhitespace(spaces[i])
    requires token == [] || !IsJsWhitespace(token[0])
    ensures TrimStart(spaces + token) == token
  {
    if spaces == [] {
      assert spaces + token == token;
    } else {
      assert (spaces + token)[0] == spaces[0];
      assert (spaces + token)[1..] == spaces[1..] + token;
      TrimStartSkips(spaces[1..], token);
    }
  }

  /** `Bearer `, any run of whitespace and then a token gives back that token. */
  lemma BearerRoundTrip(spaces: string, token: string)
    requires forall i :: 0 <= i < |spaces| ==> IsJsWhitespace(spaces[i])
    requires token == [] || !IsJsWhitespace(token[0])
    ensures ExtractToken(BearerPrefix + spaces + token) == token
  {
    var header := BearerPrefix + spaces + token;
    assert header[..|BearerPrefix|] == BearerPrefix;
    assert header[|BearerPrefix|..] == spaces + token;
    TrimStartSkips(spaces, token);
  }

  /** The prefix test is case-sensitive: a lower-case `bearer ` header goes to
      verification as it is. */
  lemma LowercaseSchemeKept(rest: string)
    ensures ExtractToken("bearer " + rest) == "bearer " + rest
  {
  }

  /** The 401 answer of a rejected request. */
  datatype Denial = Denial(status: nat, message: string)

  datatype Decision =
    | Allow(userId: Option<Value>)
    | Deny(denial: Denial)

  /** What `protect` decides for a header: no header (or an empty one) is
      refused before any verification; otherwise the extracted token decides.
      A token that verifies to a payload other than `null` passes on the
      payload's `userId`; reading `userId` of a `null` payload throws inside the
      same `try`, so that token is refused like one that fails to verify. */
  function Authorize(header: Option<string>, verify: string -> Option<Value>): (d: Decision)
    ensures !TruthyText(header) ==> d == Deny(Denial(401, NoTokenMessage))
    ensures TruthyText(header) ==>
      (d.Allow? <==> verify(ExtractToken(header.value)).Some? && !verify(ExtractToken(header.value)).value.Null?)
    ensures TruthyText(header) && d.Allow? ==>
      d.userId == Member(verify(ExtractToken(header.value)).value, "userId")
    ensures TruthyText(header) && d.Deny? ==> d.denial == Denial(401, InvalidTokenMessage)
  {
    if !TruthyText(header) then Deny(Denial(401, NoTokenMessage))
    else
      match verify(ExtractToken(header.value))
      case None => Deny(Denial(401, InvalidTokenMessage))
      case Some(Null) => Deny(Denial(401, InvalidTokenMessage))
      case Some(decoded) => Allow(Member(decoded, "userId"))
  }

  /** The part of an incoming request the middleware reads and writes. */
  class Request {
    var authorization: Option<string>
    var userId: Option<Value>

    constructor (authorization: Option<string>)
      ensures this.authorization == authorization && userId.None?
    {
      this.authorization := authorization;
      userId := None;
    }
  }

  /** `protect(req, res, next)`: returns the 401 answer it sent, if any, and how
      many times it called `next`. */
  method Protect(req: Request, verify: string -> Option<Value>) returns (answer: Option<Denial>, nextCalls: nat)
    modifies req
    ensures req.authorization == old(req.authorization)
    ensures Authorize(old(req.authorization), verify).Allow? ==>
      && answer.None? && nextCalls == 1
      && req.userId == Authorize(old(req.authorization), verify).userId
    ensures Authorize(old(req.authorization), verify).Deny? ==>
      && answer == Some(Authorize(old(req.authorization), verify).denial) && nextCalls == 0
      && req.userId == old(req.userId)
  {
    match Authorize(req.authorization, verify)
    case Deny(denial) =>
      answer, nextCalls := Some(denial), 0;
    case Allow(userId) =>
      req.userId := userId;
      answer, nextCalls := None, 1;
  }
}
