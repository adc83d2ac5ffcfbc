/**
 * The gateway's HTTP client: one outbound request per call, the response body
 * gathered from its data chunks and read as JSON where possible, and the two
 * ways the call can fail (timeout, other request error).
 */
module Transport {
  import opened Js
  import opened Wrappers
  import opened Http

  /** The message of the Error a timed-out call is rejected with. */
  const TimeoutMessage := "Request Timeout"

  /** The request timeout, in milliseconds. */
  const TimeoutMillis := 30000

  /** A backend's configured base URL, as `new URL(...)` splits it. */
  datatype Target = Target(hostname: string, port: string) {
    /** `url.host`: the host name, with the port when there is one. */
    function Host(): string {
      if port == "" then hostname else hostname + ":" + port
    }
  }

  /** The `options` object handed to `http.request`. */
  datatype RequestOptions = RequestOptions(hostname: string, port: string, path: string, verb: string, headers: Headers)

  /** One outbound request: its options and the value whose JSON text is written as the body, if any. */
  datatype Call = Call(options: RequestOptions, postData: Option<Value>)

  /** What the network does with one request. */
  datatype Exchange =
    | Answered(status: int, headers: Headers, chunks: seq<string>)
    | TimedOut
    | RequestError(message: string)

  /** A response body: parsed JSON, or the raw text when it is not valid JSON. */
  datatype Body = Parsed(value: Value) | Raw(text: string) {
    /** The JavaScript value the handlers see. */
    function AsValue(): Value {
      match this
      case Parsed(v) => v
      case Raw(t) => Str(t)
    }
  }

  /** The resolved value of a call: `{ statusCode, headers, body }`. */
  datatype BackendResponse = BackendResponse(statusCode: int, headers: Headers, body: Body)

  /** The Error a call is rejected with. */
  datatype Rejection = Rejection(message: string)

  /** The text received, in the order the chunks arrived. */
  function Concat(chunks: seq<string>): string {
    if chunks == [] then "" else Concat(chunks[..|chunks| - 1]) + chunks[|chunks| - 1]
  }

  /** Splitting the received text differently into chunks does not change it. */
  lemma {:induction false} ConcatAppend(a: seq<string>, b: seq<string>)
    ensures Concat(a + b) == Concat(a) + Concat(b)
    decreases |b|
  {
    if b == [] {
      assert a + b == a;
    } else {
      var c := a + b;
      assert c[..|c| - 1] == a + b[..|b| - 1];
      ConcatAppend(a, b[..|b| - 1]);
    }
  }

  /**
   * `rawData ? JSON.parse(rawData) : {}`, falling back to the raw text when
   * JSON.parse throws. `parse` gives the value of a valid JSON text.
   */
  function ClassifyBody(raw: string, parse: string -> Option<Value>): (b: Body)
    ensures b.Raw? <==> raw != "" && parse(raw).None?
    ensures b.Raw? ==> b.text == raw
    ensures raw == "" ==> b == Parsed(Obj(map[]))
    ensures raw != "" && b.Parsed? ==> parse(raw) == Some(b.value)
  {
    if raw == "" then Parsed(Obj(map[]))
    else match parse(raw)
      case Some(v) => Parsed(v)
      case None => Raw(raw)
  }

  /** How the promise of one call settles, given what the network did. */
  function Settle(e: Exchange, parse: string -> Option<Value>): (r: Result<BackendResponse, Rejection>)
    ensures r.Ok? <==> e.Answered?
    ensures e.TimedOut? ==> r == Err(Rejection(TimeoutMessage))
    ensures e.RequestError? ==> r == Err(Rejection(e.message))
    ensures r.Ok? ==>
              && r.value.statusCode == e.status && r.value.headers == e.headers
              && r.value.body == ClassifyBody(Concat(e.chunks), parse)
  {
    match e
    case Answered(status, headers, chunks) => Ok(BackendResponse(status, headers, ClassifyBody(Concat(chunks), parse)))
    case TimedOut => Err(Rejection(TimeoutMessage))
    case RequestError(m) => Err(Rejection(m))
  }

  /** The network the gateway talks to: what it answers to the n-th request, and what was sent. */
  class Network {
    /** The exchange that the n-th request of the process gets. */
    const respond: (nat, Call) -> Exchange
    /** Every request issued so far, in order. */
    var log: seq<Call>
    /** Indices of the requests destroyed after a timeout. */
    var destroyed: set<nat>

    constructor (respond: (nat, Call) -> Exchange)
      ensures this.respond == respond && log == [] && destroyed == {}
    {
      this.respond := respond;
      log := [];
      destroyed := {};
    }

    /** What the next request to be issued would get. */
    function Next(call: Call): Exchange
      reads this
    {
      respond(|log|, call)
    }
  }

  /** Accumulates the response text chunk by chunk (`rawData += chunk`). */
  method ReadBody(chunks: seq<string>) returns (rawData: string)
    ensures rawData == Concat(chunks)
  {
    rawData := "";
    var i := 0;
    while i < |chunks|
      invariant 0 <= i <= |chunks|
      invariant rawData == Concat(chunks[..i])
    {
      assert chunks[..i + 1][..i] == chunks[..i];
      rawData := rawData + chunks[i];
      i := i + 1;
    }
    assert chunks[..i] == chunks;
  }

  /**
   * `makeHttpRequest(options, postData)`: issues exactly one request and
   * settles with the response or the Error; a timed-out request is destroyed.
   */
  method MakeHttpRequest(net: Network, call: Call, parse: string -> Option<Value>)
    returns (r: Result<BackendResponse, Rejection>)
    modifies net
    ensures net.log == old(net.log) + [call]
    ensures r == Settle(net.respond(|old(net.log)|, call), parse)
    ensures net.destroyed == old(net.destroyed) + if net.respond(|old(net.log)|, call).TimedOut? then {|old(net.log)|} else {}
  {
    var index := |net.log|;
    var e := net.respond(index, call);
    net.log := net.log + [call];
    match e
    case Answered(status, headers, chunks) =>
      var rawData := ReadBody(chunks);
      r := Ok(BackendResponse(status, headers, ClassifyBody(rawData, parse)));
    case TimedOut =>
      net.destroyed := net.destroyed + {index};
      r := Err(Rejection(TimeoutMessage));
    case RequestError(m) =>
      r := Err(Rejection(m));
  }
}
