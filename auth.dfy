/** The server's authentication middleware: it reads the `Authorization`
    header, strips the word "Bearer" and surrounding whitespace, verifies the
    token, and either records the caller's identity on the request and hands
    over to the next handler, or answers 401. Token verification (the JSON Web
    Token signature, its expiry, the server secret) is a parameter. */
module Auth {
  import opened Text

  const Bearer: string := "Bearer"
  const MissingTokenError: string := "Token não fornecido"
  const InvalidTokenError: string := "Token inválido"
  const Unauthorized: int := 401

  /** What a token that verifies carries. */
  datatype Payload = Payload(id: int, email: string)

  /** The middleware's decision: a 401 with its message, or the identity to record. */
  datatype Decision = Reject(error: string) | Admit(userId: int, userEmail: string)

  /** `authorization.replace('Bearer', '').trim()`. */
  function ExtractToken(authorization: string): (token: string)
    ensures token == [] || (!IsWhitespace(token[0]) && !IsWhitespace(token[|token| - 1]))
  {
    Trim(ReplaceFirst(authorization, Bearer, ""))
  }

  /** The decision for a header (`None` when the request has none). An empty
      header counts as missing; any token the verifier refuses is invalid. */
  function Decide(authorization: Option<string>, verify: string -> Option<Payload>): (d: Decision)
    ensures d.Reject? ==> d.error == MissingTokenError || d.error == InvalidTokenError
    ensures (authorization.Some? && |authorization.value| != 0
             && verify(ExtractToken(authorization.value)).None?) ==> d == Reject(InvalidTokenError)
  {
    if authorization.None? || |authorization.value| == 0 then Reject(MissingTokenError)
    else
      match verify(ExtractToken(authorization.value))
      case None => Reject(InvalidTokenError)
      case Some(p) => Admit(p.id, p.email)
  }

  /** The request is let through exactly when a non-empty header is present and
      its token verifies; the identity recorded is the token's payload. */
  lemma AdmitIff(authorization: Option<string>, verify: string -> Option<Payload>)
    ensures Decide(authorization, verify).Admit?
        <==> authorization.Some? && authorization.value != [] && verify(ExtractToken(authorization.value)).Some?
    ensures Decide(authorization, verify).Admit? ==>
              var p := verify(ExtractToken(authorization.value)).value;
              Decide(authorization, verify) == Admit(p.id, p.email)
  {
  }

  /** A missing or empty header is told apart from a bad token: the verifier is
      not consulted, whatever it would say. */
  lemma MissingHeaderIgnoresVerifier(authorization: Option<string>, verify: string -> Option<Payload>)
    requires authorization.None? || authorization.value == []
    ensures Decide(authorization, verify) == Reject(MissingTokenError)
  {
  }

  /** The usual header `"Bearer <token>"` yields the token, trimmed. */
  lemma BearerHeaderToken(token: string)
    ensures ExtractToken(Bearer + " " + token) == Trim(token)
  {
    var h := Bearer + " " + token;
    assert h[..|Bearer|] == Bearer;
    assert ReplaceFirst(h, Bearer, "") == [' '] + token by {
      assert h[|Bearer|..] == [' '] + token;
    }
    TrimSkipsLeadingSpace(' ', token);
  }

  /** A header without the word "Bearer" (a bare token, or a lower-case
      "bearer") is only trimmed: the whole of it is taken for the token. */
  lemma HeaderWithoutBearer(authorization: string)
    requires forall k :: 0 <= k ==> !OccursAt(authorization, Bearer, k)
    ensures ExtractToken(authorization) == Trim(authorization)
  {
    ReplaceFirstAbsent(authorization, Bearer, "");
  }

  /** Only the first "Bearer" is removed: a second one stays inside the token. */
  lemma OnlyFirstBearerRemoved(token: string)
    requires token != [] && !IsWhitespace(token[0]) && !IsWhitespace(token[|token| - 1])
    ensures ExtractToken(Bearer + " " + (Bearer + token)) == Bearer + token
  {
    var inner := Bearer + token;
    BearerHeaderToken(inner);
    assert !IsWhitespace(inner[0]) by {
      assert inner[0] == Bearer[0] == 'B';
    }
    assert inner[|inner| - 1] == token[|token| - 1];
    TrimOfTrimmed(inner);
  }

  // ------------------------------------------------------------- the request

  /** One request passing through the middleware: its header, the identity
      fields the middleware may set, the 401 it may send, and how many times
      the next handler was called. */
  class Exchange {
    const authorization: Option<string>
    var userId: Option<int>
    var userEmail: Option<string>
    var sent: Option<(int, string)>
    var nextCalls: nat

    constructor(authorization: Option<string>)
      ensures this.authorization == authorization
      ensures userId == None && userEmail == None && sent == None && nextCalls == 0
    {
      this.authorization := authorization;
      userId := None;
      userEmail := None;
      sent := None;
      nextCalls := 0;
    }
  }

  /** `authMiddleware(req, res, next)`: the decision is taken on the header,
      then acted on. Exactly one of "401 sent" and "next called once" happens,
      and the identity is set only on the way through. */
  method AuthMiddleware(ex: Exchange, verify: string -> Option<Payload>)
    requires ex.sent == None && ex.nextCalls == 0
    modifies ex
    ensures var d := Decide(ex.authorization, verify);
            && (d.Reject? ==> ex.sent == Some((Unauthorized, d.error)) && ex.nextCalls == 0
                              && ex.userId == old(ex.userId) && ex.userEmail == old(ex.userEmail))
            && (d.Admit? ==> ex.sent == None && ex.nextCalls == 1
                             && ex.userId == Some(d.userId) && ex.userEmail == Some(d.userEmail))
  {
    var decision := Decide(ex.authorization, verify);
    match decision
    case Reject(error) =>
      ex.sent := Some((Unauthorized, error));
    case Admit(id, email) =>
      ex.userId := Some(id);
      ex.userEmail := Some(email);
      ex.nextCalls := ex.nextCalls + 1;
  }
}
