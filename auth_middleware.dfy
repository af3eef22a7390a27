/** The access gate in front of every route that needs an identity: it takes the bearer
    token of the `Authorization` header, has it verified, and either stores the decoded
    payload on the request and passes control on, or answers 401 itself. */
module AuthMiddleware {
  import opened Common
  import opened Text

  /** The scheme prefix, compared case-sensitively (section 2.1 of RFC 6750 allows any case;
      this gate does not). */
  const BearerPrefix: string := "Bearer "

  /** The token of a header accepted as a bearer header: `header.split(" ")[1]`, that is the
      text after "Bearer " up to the next space. None when the header is missing or does not
      start with "Bearer ". */
  function BearerToken(header: Option<string>): (token: Option<string>)
    ensures token.Some? <==> header.Some? && StartsWith(header.value, BearerPrefix)
    ensures token.Some? ==>
      var rest := header.value[|BearerPrefix|..];
      && ' ' !in token.value
      && (token.value == rest || StartsWith(rest, token.value + " "))
  {
    if header.Some? && StartsWith(header.value, BearerPrefix) then
      var h := header.value;
      var rest := h[|BearerPrefix|..];
      assert h == "Bearer" + [' '] + rest;
      SplitAfterField("Bearer", ' ', rest);
      FirstField(rest, ' ');
      Some(Split(h, ' ')[1])
    else
      None
  }

  /** A token without spaces, sent the way the client sends it, is read back unchanged. */
  lemma BearerTokenOfSent(token: string)
    requires ' ' !in token
    ensures BearerToken(Some(BearerPrefix + token)) == Some(token)
  {
    var h := BearerPrefix + token;
    assert h[..|BearerPrefix|] == BearerPrefix;
    assert h[|BearerPrefix|..] == token;
    var t := BearerToken(Some(h)).value;
    assert !StartsWith(token, t + " ") by {
      if |t| + 1 <= |token| {
        assert token[|t|] in token;
        assert token[..|t| + 1][|t|] == token[|t|] != ' ' == (t + " ")[|t|];
      }
    }
  }

  /** What the gate decides for a request. */
  datatype GateOutcome = Rejected(status: int, message: string) | Admitted(user: Claims)

  function Gate(header: Option<string>, verify: string -> Option<Claims>): (r: GateOutcome)
    ensures r.Rejected? ==> r.status == 401
    ensures r == Rejected(401, "No token provided") <==> BearerToken(header).None?
    ensures r == Rejected(401, "Invalid or expired token") <==>
      BearerToken(header).Some? && verify(BearerToken(header).value).None?
    ensures r.Admitted? ==> verify(BearerToken(header).value) == Some(r.user)
  {
    match BearerToken(header)
    case None => Rejected(401, "No token provided")
    case Some(token) =>
      match verify(token)
      case None => Rejected(401, "Invalid or expired token")
      case Some(claims) => Admitted(claims)
  }

  /** One request as the middleware sees it: the incoming header, the `req.user` slot, the
      response sent (status and message) if any, and how often `next()` was called. */
  class Exchange {
    const authorization: Option<string>
    var user: Option<Claims>
    var response: Option<(int, string)>
    var nextCalls: nat

    constructor (authorization: Option<string>)
      ensures this.authorization == authorization
      ensures user == None && response == None && nextCalls == 0
    {
      this.authorization := authorization;
      user, response, nextCalls := None, None, 0;
    }
  }

  /** `authMiddleware(req, res, next)`. */
  method Authenticate(ex: Exchange, verify: string -> Option<Claims>)
    modifies ex
    ensures Gate(ex.authorization, verify).Admitted? ==>
      && ex.user == Some(Gate(ex.authorization, verify).user)
      && ex.nextCalls == old(ex.nextCalls) + 1
      && ex.response == old(ex.response)
    ensures Gate(ex.authorization, verify).Rejected? ==>
      && ex.response == Some((401, Gate(ex.authorization, verify).message))
      && ex.nextCalls == old(ex.nextCalls)
      && ex.user == old(ex.user)
  {
    var token := BearerToken(ex.authorization);
    if token.None? {
      ex.response := Some((401, "No token provided"));
      return;
    }
    var decoded := verify(token.value);
    if decoded.None? {
      ex.response := Some((401, "Invalid or expired token"));
      return;
    }
    ex.user := decoded;
    ex.nextCalls := ex.nextCalls + 1;
  }
}
