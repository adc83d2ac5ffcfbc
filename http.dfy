/**
 * The request and response objects of the Express handlers: an incoming
 * request whose `user` slot the token check fills in, and a response whose
 * status, headers and body are written once.
 */
module Http {
  import opened Js
  import opened Wrappers

  /** A header map, as `req.headers` or `res.headers` hold it (names as given). */
  type Headers = map<string, Value>

  /** What was sent: `res.json(v)`, `res.send(v)` or an argument-less `res.send()`. */
  datatype Payload = Json(value: Value) | Send(value: Value) | NoContent

  /** A complete response: status code, headers passed to `res.set`, and the body. */
  datatype Reply = Reply(status: int, headers: Headers, payload: Payload)

  /** `{ message: m }`, the body of every error reply in the system. */
  function MessageBody(m: string): Value {
    Obj(map["message" := Str(m)])
  }

  /** `res.status(code).json({ message: m })` */
  function MessageReply(code: int, m: string): Reply {
    Reply(code, map[], Json(MessageBody(m)))
  }

  /** Different codes or messages make different replies. */
  lemma MessageReplyInjective(c1: int, m1: string, c2: int, m2: string)
    ensures MessageReply(c1, m1) == MessageReply(c2, m2) <==> c1 == c2 && m1 == m2
  {
    if MessageReply(c1, m1) == MessageReply(c2, m2) {
      assert MessageBody(m1).fields["message"] == MessageBody(m2).fields["message"];
    }
  }

  /** `res.status(code).json(v)` */
  function JsonReply(code: int, v: Value): Reply {
    Reply(code, map[], Json(v))
  }

  /** `res.status(500).json({ message: m || fallback })` */
  function ServerError(m: string, fallback: string): Reply {
    MessageReply(500, if m == "" then fallback else m)
  }

  /** A lookup's reply: 200 with the row, 404 when there is none, 500 with the error. */
  function FoundReply(outcome: Result<Option<Record>, string>, notFound: string, fallback: string): (r: Reply)
    ensures r.status == 200 <==> outcome.Ok? && outcome.value.Some?
    ensures r.status == 200 ==> r == JsonReply(200, Obj(outcome.value.value))
    ensures r.status == 404 <==> outcome.Ok? && outcome.value.None?
    ensures r.status == 404 ==> r == MessageReply(404, notFound)
    ensures outcome.Err? ==> r == ServerError(outcome.error, fallback)
  {
    match outcome
    case Ok(Some(row)) => JsonReply(200, Obj(row))
    case Ok(None) => MessageReply(404, notFound)
    case Err(m) => ServerError(m, fallback)
  }

  /** A removal's reply: 204 with no body, 404 when nothing was removed, 500 with the error. */
  function RemovedReply(outcome: Result<bool, string>, notFound: string, fallback: string): (r: Reply)
    ensures r.status == 204 <==> outcome == Ok(true)
    ensures r.status == 204 ==> r == Reply(204, map[], NoContent)
    ensures outcome == Ok(false) ==> r == MessageReply(404, notFound)
    ensures outcome.Err? ==> r == ServerError(outcome.error, fallback)
  {
    match outcome
    case Ok(success) => if success then Reply(204, map[], NoContent) else MessageReply(404, notFound)
    case Err(m) => ServerError(m, fallback)
  }

  /** Node hands every incoming header value over as a string. */
  predicate TextHeaders(h: Headers) {
    forall k :: k in h ==> h[k].Str?
  }

  /** The value of a string header, if present. */
  function HeaderText(h: Headers, name: string): Option<string> {
    if name in h && h[name].Str? then Some(h[name].s) else None
  }

  /** An incoming request: method, original URL (path and query), headers, parsed body. */
  class IncomingRequest {
    const verb: string
    const originalUrl: string
    const headers: Headers
    const body: Value
    /** `req.user`, filled in by the token check. */
    var user: Value

    constructor (verb: string, originalUrl: string, headers: Headers, body: Value)
      requires TextHeaders(headers)
      ensures this.verb == verb && this.originalUrl == originalUrl
      ensures this.headers == headers && this.body == body
      ensures user == Undefined
    {
      this.verb := verb;
      this.originalUrl := originalUrl;
      this.headers := headers;
      this.body := body;
      user := Undefined;
    }
  }

  /** A response under construction; it is sent at most once. */
  class ClientResponse {
    var statusCode: int
    var headers: Headers
    /** The body once sent; `None` while nothing has been sent. */
    var sent: Option<Payload>

    predicate HeadersSent()
      reads this
    {
      sent.Some?
    }

    constructor ()
      ensures statusCode == 200 && headers == map[] && sent == None
    {
      statusCode := 200;
      headers := map[];
      sent := None;
    }

    /** `res.status(code)` */
    method Status(code: int)
      modifies this`statusCode
      ensures statusCode == code
    {
      statusCode := code;
    }

    /** `res.set(h)`: each given header replaces one of the same name. */
    method Set(h: Headers)
      requires !HeadersSent()
      modifies this`headers
      ensures headers == old(headers) + h
    {
      headers := headers + h;
    }

    /** `res.json(v)`, `res.send(v)` or `res.send()`: sends the response. */
    method Write(p: Payload)
      requires !HeadersSent()
      modifies this`sent
      ensures sent == Some(p)
    {
      sent := Some(p);
    }
  }

  /** The response holds exactly reply r, on top of the headers it had before. */
  ghost predicate Delivered(res: ClientResponse, before: Headers, r: Reply)
    reads res
  {
    res.statusCode == r.status && res.headers == before + r.headers && res.sent == Some(r.payload)
  }
}
