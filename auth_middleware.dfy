/**
 * The gateway's bearer-token gate (`verifyToken`): the token is the second
 * space-separated field of the Authorization header, the signature check is
 * an oracle, and every request ends in exactly one of 403, 401 or "continue"
 * with the decoded claims attached to the request.
 */
module AuthMiddleware {
  import opened Js
  import opened Wrappers
  import opened Http

  const NoTokenMessage := "Acesso negado. Nenhum token fornecido."
  const ExpiredMessage := "Token expirado."
  const InvalidMessage := "Token inválido."
  /** The `name` of the error jsonwebtoken throws for a token past its expiry. */
  const ExpiredErrorName := "TokenExpiredError"

  /** What `jwt.verify(token, secret)` does: return the payload or throw a named error. */
  datatype Verification = Verified(payload: Value) | Rejected(errorName: string)

  /** The gate's decision: reply now, or call `next()` with `req.user` set to the claims. */
  datatype GateOutcome = Deny(reply: Reply) | Admit(claims: Value)

  // ---------------------------------------------------------------------------
  // s.split(' ')

  /** `s.split(' ')`: the fields between single spaces, empty ones included. */
  function Split(s: string): (parts: seq<string>)
    ensures |parts| > 0
    ensures forall i :: 0 <= i < |parts| ==> ' ' !in parts[i]
  {
    if s == [] then [""]
    else if s[0] == ' ' then [""] + Split(s[1..])
    else
      var rest := Split(s[1..]);
      [[s[0]] + rest[0]] + rest[1..]
  }

  /** `parts.join(' ')` */
  function Join(parts: seq<string>): string
    requires |parts| > 0
  {
    if |parts| == 1 then parts[0] else parts[0] + " " + Join(parts[1..])
  }

  /** Splitting loses nothing: joining the fields back gives the header value. */
  lemma {:induction false} JoinSplit(s: string)
    ensures Join(Split(s)) == s
  {
    if s != [] {
      JoinSplit(s[1..]);
      var rest := Split(s[1..]);
      if s[0] == ' ' {
        assert Split(s)[1..] == rest;
      } else {
        var parts := Split(s);
        assert parts[1..] == rest[1..];
        if |rest| > 1 {
          assert rest[1..][..] == rest[1..];
          assert Join(rest) == rest[0] + " " + Join(rest[1..]);
        }
      }
    }
  }

  /** s is `scheme + " " + token + rest`, where rest is empty or starts a further field. */
  predicate FieldsAround(s: string, scheme: string, token: string, rest: string) {
    && s == scheme + " " + token + rest
    && ' ' !in scheme && ' ' !in token
    && (rest == "" || rest[0] == ' ')
  }

  /**
   * `authHeader && authHeader.split(' ')[1]`: the second field of the
   * header, whatever the first one says. `None` stands for the falsy results.
   */
  function ExtractToken(authHeader: Option<string>): (t: Option<string>)
    ensures t.Some? <==> authHeader.Some? && ' ' in authHeader.value
    ensures t.Some? ==> exists scheme, rest :: FieldsAround(authHeader.value, scheme, t.value, rest)
  {
    if authHeader.None? || authHeader.value == "" then None
    else
      var parts := Split(authHeader.value);
      SplitSecondField(authHeader.value);
      if |parts| > 1 then Some(parts[1]) else None
  }

  /** The join of two or more fields, cut after the first space. */
  lemma JoinCons(parts: seq<string>)
    requires |parts| > 1
    ensures Join(parts) == parts[0] + " " + Join(parts[1..])
  {
  }

  /** The join of the fields after the first one starts with the second field. */
  lemma JoinHead(tail: seq<string>) returns (rest: string)
    requires |tail| > 0
    ensures Join(tail) == tail[0] + rest
    ensures rest == "" || rest[0] == ' '
  {
    if |tail| == 1 {
      rest := "";
    } else {
      rest := " " + Join(tail[1..]);
    }
  }

  lemma SplitSecondField(s: string)
    ensures |Split(s)| > 1 <==> ' ' in s
    ensures |Split(s)| > 1 ==> exists scheme, rest :: FieldsAround(s, scheme, Split(s)[1], rest)
  {
    var parts := Split(s);
    JoinSplit(s);
    if |parts| > 1 {
      JoinCons(parts);
      var rest := JoinHead(parts[1..]);
      var scheme, token := parts[0], parts[1];
      assert s == scheme + " " + (token + rest);
      assert s == scheme + " " + token + rest;
      assert s[|scheme|] == ' ';
      assert FieldsAround(s, scheme, token, rest);
    } else {
      assert s == parts[0];
    }
  }

  /** `!token`: no header, no second field, or an empty one. */
  predicate NoToken(authHeader: Option<string>) {
    var t := ExtractToken(authHeader);
    t.None? || t.value == ""
  }

  /** The decision `verifyToken` takes for a given Authorization header. */
  function Gate(authHeader: Option<string>, verify: string -> Verification): (g: GateOutcome)
    ensures NoToken(authHeader) <==> g == Deny(MessageReply(403, NoTokenMessage))
    ensures g.Admit? <==> !NoToken(authHeader) && verify(ExtractToken(authHeader).value).Verified?
    ensures g.Admit? ==> g.claims == verify(ExtractToken(authHeader).value).payload
    ensures g == Deny(MessageReply(401, ExpiredMessage)) <==>
              !NoToken(authHeader) && verify(ExtractToken(authHeader).value) == Rejected(ExpiredErrorName)
    ensures g == Deny(MessageReply(401, InvalidMessage)) <==>
              && !NoToken(authHeader)
              && verify(ExtractToken(authHeader).value).Rejected?
              && verify(ExtractToken(authHeader).value).errorName != ExpiredErrorName
  {
    var token := ExtractToken(authHeader);
    if token.None? || token.value == "" then Deny(MessageReply(403, NoTokenMessage))
    else match verify(token.value)
      case Verified(decoded) => Admit(decoded)
      case Rejected(name) =>
        MessageReplyInjective(401, ExpiredMessage, 401, InvalidMessage);
        MessageReplyInjective(401, ExpiredMessage, 403, NoTokenMessage);
        MessageReplyInjective(401, InvalidMessage, 403, NoTokenMessage);
        if name == ExpiredErrorName then Deny(MessageReply(401, ExpiredMessage))
        else Deny(MessageReply(401, InvalidMessage))
  }

  /** Every request gets exactly one of: 403, 401, or admission. */
  lemma GateOutcomesExclusive(authHeader: Option<string>, verify: string -> Verification)
    ensures var g := Gate(authHeader, verify);
      g.Admit? || (g.Deny? && g.reply.status in {401, 403})
    ensures var g := Gate(authHeader, verify);
      g.Deny? ==> g.reply.headers == map[] && g.reply.payload.Json?
  {
  }

  /**
   * `verifyToken(req, res, next)`: returns whether `next()` is called. On
   * admission only `req.user` changes; otherwise only the response is written.
   */
  method VerifyToken(req: IncomingRequest, res: ClientResponse, verify: string -> Verification)
    returns (next: bool)
    requires !res.HeadersSent()
    modifies req`user, res
    ensures var g := Gate(HeaderText(req.headers, "authorization"), verify);
      && (next <==> g.Admit?)
      && (g.Admit? ==> req.user == g.claims && res.statusCode == old(res.statusCode)
                       && res.headers == old(res.headers) && res.sent == old(res.sent))
      && (g.Deny? ==> req.user == old(req.user) && Delivered(res, old(res.headers), g.reply))
  {
    var authHeader := HeaderText(req.headers, "authorization");
    var token := ExtractToken(authHeader);
    if token.None? || token.value == "" {
      res.Status(403);
      res.Write(Json(MessageBody(NoTokenMessage)));
      return false;
    }
    match verify(token.value)
    case Verified(decoded) =>
      req.user := decoded;
      next := true;
    case Rejected(name) =>
      if name == ExpiredErrorName {
        res.Status(401);
        res.Write(Json(MessageBody(ExpiredMessage)));
      } else {
        res.Status(401);
        res.Write(Json(MessageBody(InvalidMessage)));
      }
      next := false;
  }
}
