/**
 * The API gateway's request handlers: the generic proxy that forwards a
 * request to one backend (rewriting the headers, relaying the answer or
 * mapping a transport failure to 504/502), the `/api/auth` handler with its
 * registration saga (a profile is created in the user service after the auth
 * service registers a user), and the protected routes that run the token gate
 * first.
 */
module Gateway {
  import opened Js
  import opened Wrappers
  import opened Http
  import opened Transport
  import opened AuthMiddleware

  const JsonContentType := Str("application/json")

  const AuthTimeoutText := "Gateway Timeout: AuthService demorou muito a responder."
  const AuthFailureText := "Bad Gateway: Erro ao processar pedido de autenticação."
  const ProfileWarningText := "Utilizador registado, mas ocorreu um problema ao criar o perfil inicial."
  const ProfileErrorText := "Utilizador registado, mas falha ao contactar o serviço de perfis."
  const RegisterPath := "/api/auth/register"

  /** The 504 text of the generic proxy for a named service. */
  function ServiceTimeoutText(serviceName: string): string {
    "Gateway Timeout: O " + serviceName + " demorou muito a responder."
  }

  /** The 502 text of the generic proxy for a named service. */
  function ServiceFailureText(serviceName: string): string {
    "Bad Gateway: Erro ao comunicar com o " + serviceName + "."
  }

  /** The request as the handlers see it once the token gate has run. */
  datatype ClientRequest = ClientRequest(verb: string, originalUrl: string, headers: Headers, body: Value, user: Value)

  /** `clientReq.user && clientReq.user.sub`: the gate left an identity to pass on. */
  predicate InjectsIdentity(user: Value) {
    Truthy(user) && Truthy(Prop(user, "sub"))
  }

  /** `(body && Object.keys(body).length > 0) ? JSON.stringify(body) : null`, before serialisation. */
  function OutboundBody(body: Value): (b: Option<Value>)
    ensures b.Some? <==> HasKeys(body)
    ensures b.Some? ==> b.value == body
  {
    if HasKeys(body) then Some(body) else None
  }

  // ---------------------------------------------------------------------------
  // Generic proxy

  /** The header names the generic proxy sets or removes. */
  predicate Rewritten(k: string, user: Value, body: Value) {
    || k == "host" || k == "content-length" || k == "transfer-encoding"
    || (k == "X-User-ID" && InjectsIdentity(user))
    || (k == "Content-Type" && HasKeys(body))
  }

  /** The outbound headers of the generic proxy. */
  function ProxyHeaders(client: Headers, user: Value, host: string, body: Value): (h: Headers)
    ensures "host" in h && h["host"] == Str(host)
    ensures "content-length" !in h && "transfer-encoding" !in h
    ensures InjectsIdentity(user) ==> "X-User-ID" in h && h["X-User-ID"] == Prop(user, "sub")
    ensures HasKeys(body) ==> "Content-Type" in h && h["Content-Type"] == JsonContentType
    ensures forall k :: !Rewritten(k, user, body) ==> (k in h <==> k in client) && (k in client ==> h[k] == client[k])
  {
    var copied := client["host" := Str(host)];
    var identified := if InjectsIdentity(user) then copied["X-User-ID" := Prop(user, "sub")] else copied;
    var stripped := identified - {"content-length"} - {"transfer-encoding"};
    if HasKeys(body) then stripped["Content-Type" := JsonContentType] else stripped
  }

  /** The request the generic proxy sends to `target` for a client request. */
  function ProxyCall(target: Target, req: ClientRequest): Call {
    Call(
      RequestOptions(target.hostname, target.port, req.originalUrl, req.verb,
        ProxyHeaders(req.headers, req.user, target.Host(), req.body)),
      OutboundBody(req.body))
  }

  /** The backend's response headers without `transfer-encoding` and `content-length`. */
  function ResponseHeaders(h: Headers): (r: Headers)
    ensures "transfer-encoding" !in r && "content-length" !in r
    ensures forall k :: k != "transfer-encoding" && k != "content-length" ==>
              (k in r <==> k in h) && (k in h ==> r[k] == h[k])
  {
    h - {"transfer-encoding"} - {"content-length"}
  }

  /** The backend's answer passed to the client: its status, filtered headers, and the body. */
  function RelayReply(resp: BackendResponse): (r: Reply)
    ensures r.status == resp.statusCode
    ensures r.headers == ResponseHeaders(resp.headers)
    ensures !r.payload.NoContent? && r.payload.value == resp.body.AsValue()
    ensures r.payload.Json? <==> IsObjectType(resp.body.AsValue())
    ensures resp.body.Raw? ==> r.payload == Send(Str(resp.body.text))
  {
    var v := resp.body.AsValue();
    Reply(resp.statusCode, ResponseHeaders(resp.headers), if IsObjectType(v) then Json(v) else Send(v))
  }

  /** The reply to a rejected call: 504 for a timeout, 502 for anything else. */
  function FailureReply(message: string, timeoutText: string, otherText: string): (r: Reply)
    ensures r.status == 504 <==> message == TimeoutMessage
    ensures r.status == 504 || r.status == 502
    ensures r.headers == map[]
    ensures r.payload == Send(Str(if r.status == 504 then timeoutText else otherText))
  {
    if message == TimeoutMessage then Reply(504, map[], Send(Str(timeoutText)))
    else Reply(502, map[], Send(Str(otherText)))
  }

  /** What the generic proxy answers once its call has settled. */
  function ProxyReply(serviceName: string, r: Result<BackendResponse, Rejection>): (reply: Reply)
    ensures r.Ok? ==> reply == RelayReply(r.value)
    ensures r.Err? ==> reply == FailureReply(r.error.message, ServiceTimeoutText(serviceName), ServiceFailureText(serviceName))
  {
    match r
    case Ok(resp) => RelayReply(resp)
    case Err(e) => FailureReply(e.message, ServiceTimeoutText(serviceName), ServiceFailureText(serviceName))
  }

  /** `if (!clientRes.headersSent) { ... status(504|502).send(text) }` */
  method WriteTransportFailure(res: ClientResponse, message: string, timeoutText: string, otherText: string)
    modifies res
    ensures old(res.HeadersSent()) ==>
              res.statusCode == old(res.statusCode) && res.headers == old(res.headers) && res.sent == old(res.sent)
    ensures !old(res.HeadersSent()) ==> Delivered(res, old(res.headers), FailureReply(message, timeoutText, otherText))
  {
    if !res.HeadersSent() {
      if message == TimeoutMessage {
        res.Status(504);
        res.Write(Send(Str(timeoutText)));
      } else {
        res.Status(502);
        res.Write(Send(Str(otherText)));
      }
      assert res.headers == old(res.headers) + map[];
    }
  }

  /** `status(code).set(headers)` followed by `json(body)` or `send(body)`. */
  method WriteRelay(res: ClientResponse, resp: BackendResponse)
    requires !res.HeadersSent()
    modifies res
    ensures Delivered(res, old(res.headers), RelayReply(resp))
  {
    var responseHeaders := resp.headers;
    responseHeaders := responseHeaders - {"transfer-encoding"};
    responseHeaders := responseHeaders - {"content-length"};
    res.Status(resp.statusCode);
    res.Set(responseHeaders);
    var v := resp.body.AsValue();
    if IsObjectType(v) {
      res.Write(Json(v));
    } else {
      res.Write(Send(v));
    }
  }

  /**
   * The handler `createManualProxyHandler(serviceName, serviceUrl)` returns:
   * one call to the backend with the rewritten headers, then the relayed
   * answer or the failure reply.
   */
  method ManualProxy(serviceName: string, target: Target, req: IncomingRequest, res: ClientResponse,
                     net: Network, parse: string -> Option<Value>)
    requires !res.HeadersSent()
    modifies net, res
    ensures var call := ProxyCall(target, ClientRequest(req.verb, req.originalUrl, req.headers, req.body, req.user));
      && net.log == old(net.log) + [call]
      && Delivered(res, old(res.headers), ProxyReply(serviceName, Settle(net.respond(|old(net.log)|, call), parse)))
  {
    var headers := req.headers;
    headers := headers["host" := Str(target.Host())];
    if Truthy(req.user) && Truthy(Prop(req.user, "sub")) {
      headers := headers["X-User-ID" := Prop(req.user, "sub")];
    }
    headers := headers - {"content-length"};
    headers := headers - {"transfer-encoding"};
    var bodyData := OutboundBody(req.body);
    if bodyData.Some? {
      headers := headers["Content-Type" := JsonContentType];
    }
    var call := Call(RequestOptions(target.hostname, target.port, req.originalUrl, req.verb, headers), bodyData);
    assert call == ProxyCall(target, ClientRequest(req.verb, req.originalUrl, req.headers, req.body, req.user));
    var r := MakeHttpRequest(net, call, parse);
    match r
    case Ok(resp) =>
      WriteRelay(res, resp);
    case Err(e) =>
      WriteTransportFailure(res, e.message, ServiceTimeoutText(serviceName), ServiceFailureText(serviceName));
  }

  /** The outbound headers of the generic proxy carry the identity the gate admitted. */
  lemma ProxyForwardsIdentity(target: Target, req: ClientRequest)
    requires InjectsIdentity(req.user)
    ensures var h := ProxyCall(target, req).options.headers;
      "X-User-ID" in h && h["X-User-ID"] == Prop(req.user, "sub")
  {
  }

  /**
   * The outbound options keep a client's own `x-user-id` as copied. Without an
   * identity the gateway adds no `X-User-ID`, so that client value is the only
   * user id header sent: the backend sees whatever id the client chose.
   */
  lemma ProxyForwardsClientUserId(target: Target, req: ClientRequest)
    ensures var h := ProxyCall(target, req).options.headers;
      && ("x-user-id" in h <==> "x-user-id" in req.headers)
      && ("x-user-id" in req.headers ==> h["x-user-id"] == req.headers["x-user-id"])
      && (!InjectsIdentity(req.user) && "X-User-ID" !in req.headers ==> "X-User-ID" !in h)
  {
    assert !Rewritten("x-user-id", req.user, req.body);
    assert !InjectsIdentity(req.user) ==> !Rewritten("X-User-ID", req.user, req.body);
  }

  // ---------------------------------------------------------------------------
  // The /api/auth handler and the registration saga

  /** The outbound headers of the `/api/auth` handler: host and content-length removed. */
  function AuthHeaders(client: Headers, host: string, body: Value): (h: Headers)
    ensures "host" !in h && "content-length" !in h
    ensures HasKeys(body) ==> "Content-Type" in h && h["Content-Type"] == JsonContentType
    ensures forall k :: k != "host" && k != "content-length" && !(k == "Content-Type" && HasKeys(body)) ==>
              (k in h <==> k in client) && (k in client ==> h[k] == client[k])
  {
    var copied := client["host" := Str(host)];
    var stripped := copied - {"host"} - {"content-length"};
    if HasKeys(body) then stripped["Content-Type" := JsonContentType] else stripped
  }

  /** The request the `/api/auth` handler sends to the auth service. */
  function AuthCall(target: Target, req: ClientRequest): Call {
    Call(
      RequestOptions(target.hostname, target.port, req.originalUrl, req.verb,
        AuthHeaders(req.headers, target.Host(), req.body)),
      OutboundBody(req.body))
  }

  /** `originalUrl === '/api/auth/register' && method === 'POST'` */
  predicate IsRegisterRoute(req: ClientRequest) {
    req.originalUrl == RegisterPath && req.verb == "POST"
  }

  /** The saga starts: a registration the auth service accepted with a user id. */
  predicate SagaApplies(req: ClientRequest, auth: BackendResponse) {
    && IsRegisterRoute(req)
    && auth.statusCode == 201
    && Truthy(auth.body.AsValue())
    && Truthy(Prop(auth.body.AsValue(), "userId"))
  }

  /** `/api/users/${newUserId}/profile` */
  function ProfilePath(userId: Value): string {
    "/api/users/" + ToString(userId) + "/profile"
  }

  /** `userEmail || \`Utilizador ${newUserId}\`` */
  function ProfileName(authBody: Value): (name: Value)
    ensures Truthy(name)
    ensures Truthy(Prop(authBody, "email")) ==> name == Prop(authBody, "email")
    ensures !Truthy(Prop(authBody, "email")) ==> name == Str("Utilizador " + ToString(Prop(authBody, "userId")))
  {
    Or(Prop(authBody, "email"), Str("Utilizador " + ToString(Prop(authBody, "userId"))))
  }

  /** The synthesised profile-creation request. */
  function ProfileCall(users: Target, authBody: Value): Call {
    Call(
      RequestOptions(users.hostname, users.port, ProfilePath(Prop(authBody, "userId")), "POST",
        map["Content-Type" := JsonContentType, "host" := Str(users.Host())] - {"host"}),
      Some(Obj(map["name" := ProfileName(authBody)])))
  }

  /** `{ ...authBody, key: text }` */
  function WithNote(authBody: Value, key: string, text: string): (v: Value)
    ensures v.Obj? && key in v.fields && v.fields[key] == Str(text)
    ensures forall k :: k != key ==> (k in v.fields <==> k in Spread(authBody)) && (k in Spread(authBody) ==> v.fields[k] == Spread(authBody)[k])
  {
    Obj(Spread(authBody)[key := Str(text)])
  }

  /**
   * The saga's reply: always the auth service's status, with the auth body
   * as it came or with a note about the profile. `profile` is `None` when no
   * user-service URL is configured.
   */
  function SagaReply(auth: BackendResponse, profile: Option<Result<BackendResponse, Rejection>>): (r: Reply)
    ensures r.status == auth.statusCode && r.headers == map[] && r.payload.Json?
    ensures profile.None? || (profile.value.Ok? && 200 <= profile.value.value.statusCode < 300) ==>
              r.payload.value == auth.body.AsValue()
    ensures profile.Some? && profile.value.Ok? && !(200 <= profile.value.value.statusCode < 300) ==>
              r.payload.value == WithNote(auth.body.AsValue(), "profileCreationWarning", ProfileWarningText)
    ensures profile.Some? && profile.value.Err? ==>
              r.payload.value == WithNote(auth.body.AsValue(), "profileCreationError", ProfileErrorText)
  {
    var body := auth.body.AsValue();
    match profile
    case None => JsonReply(auth.statusCode, body)
    case Some(Ok(p)) =>
      if 200 <= p.statusCode < 300 then JsonReply(auth.statusCode, body)
      else JsonReply(auth.statusCode, WithNote(body, "profileCreationWarning", ProfileWarningText))
    case Some(Err(_)) => JsonReply(auth.statusCode, WithNote(body, "profileCreationError", ProfileErrorText))
  }

  /** The requests one `/api/auth` request leads to, and the client's reply. */
  datatype Flow = Flow(calls: seq<Call>, reply: Reply)

  /**
   * What the `/api/auth` handler does once the auth service has answered:
   * the saga's profile call, if any, and the reply. `respond(n, c)` is the
   * exchange of the n-th request of the process; `next` is the index the
   * profile call would get.
   */
  function AfterAuth(users: Option<Target>, req: ClientRequest, a: BackendResponse,
                     respond: (nat, Call) -> Exchange, next: nat, parse: string -> Option<Value>): Flow
  {
    if !SagaApplies(req, a) then Flow([], RelayReply(a))
    else if users.None? then Flow([], SagaReply(a, None))
    else
      var second := ProfileCall(users.value, a.body.AsValue());
      Flow([second], SagaReply(a, Some(Settle(respond(next, second), parse))))
  }

  /** The network saw exactly the flow's requests and the response holds exactly its reply. */
  ghost predicate Performed(net: Network, log: seq<Call>, res: ClientResponse, before: Headers, f: Flow)
    reads net, res
  {
    net.log == log + f.calls && Delivered(res, before, f.reply)
  }

  /** What the handler does with the settled auth-service call: the transport failure, or what the answer leads to. */
  function AnswerFlow(users: Option<Target>, req: ClientRequest, r: Result<BackendResponse, Rejection>,
                      respond: (nat, Call) -> Exchange, next: nat, parse: string -> Option<Value>): Flow
  {
    match r
    case Err(e) => Flow([], FailureReply(e.message, AuthTimeoutText, AuthFailureText))
    case Ok(a) => AfterAuth(users, req, a, respond, next, parse)
  }

  /** Request `first`, numbered `start`, and what its answer leads to. */
  function FlowFrom(first: Call, users: Option<Target>, req: ClientRequest,
                    respond: (nat, Call) -> Exchange, start: nat, parse: string -> Option<Value>): Flow
  {
    var rest := AnswerFlow(users, req, Settle(respond(start, first), parse), respond, start + 1, parse);
    Flow([first] + rest.calls, rest.reply)
  }

  /** The whole `/api/auth` handler, starting with the request numbered `start`. */
  function AuthFlow(auth: Target, users: Option<Target>, req: ClientRequest,
                    respond: (nat, Call) -> Exchange, start: nat, parse: string -> Option<Value>): Flow
  {
    FlowFrom(AuthCall(auth, req), users, req, respond, start, parse)
  }

  /** `res.status(code).json({ ...body, key: text })` or, with no note, `res.status(code).json(body)`. */
  method WriteSagaReply(res: ClientResponse, auth: BackendResponse, profile: Option<Result<BackendResponse, Rejection>>)
    requires !res.HeadersSent()
    modifies res
    ensures Delivered(res, old(res.headers), SagaReply(auth, profile))
  {
    res.Status(auth.statusCode);
    var body := auth.body.AsValue();
    match profile
    case None =>
      res.Write(Json(body));
    case Some(Ok(p)) =>
      if 200 <= p.statusCode < 300 {
        res.Write(Json(body));
      } else {
        res.Write(Json(Obj(Spread(body)["profileCreationWarning" := Str(ProfileWarningText)])));
      }
    case Some(Err(_)) =>
      res.Write(Json(Obj(Spread(body)["profileCreationError" := Str(ProfileErrorText)])));
    assert res.headers == old(res.headers) + map[];
  }

  /** Builds the auth-service request the way lines 134-151 of the handler do. */
  method BuildAuthCall(auth: Target, req: ClientRequest) returns (call: Call)
    ensures call == AuthCall(auth, req)
  {
    var headers := req.headers["host" := Str(auth.Host())];
    headers := headers - {"host"};
    headers := headers - {"content-length"};
    var bodyData := OutboundBody(req.body);
    if bodyData.Some? {
      headers := headers["Content-Type" := JsonContentType];
    }
    call := Call(RequestOptions(auth.hostname, auth.port, req.originalUrl, req.verb, headers), bodyData);
  }

  /** Builds the profile-creation request from the auth service's answer. */
  method BuildProfileCall(users: Target, authBody: Value) returns (call: Call)
    ensures call == ProfileCall(users, authBody)
  {
    var newUserId := Prop(authBody, "userId");
    var userEmail := Prop(authBody, "email");
    var headers := map["Content-Type" := JsonContentType, "host" := Str(users.Host())];
    headers := headers - {"host"};
    var profileBody := Obj(map["name" := Or(userEmail, Str("Utilizador " + ToString(newUserId)))]);
    call := Call(RequestOptions(users.hostname, users.port, "/api/users/" + ToString(newUserId) + "/profile", "POST", headers),
                 Some(profileBody));
  }

  /** Lines 156-210: the saga, or the plain relay of the auth service's answer. */
  method FinishAuth(users: Option<Target>, req: ClientRequest, a: BackendResponse, res: ClientResponse,
                    net: Network, parse: string -> Option<Value>)
    requires !res.HeadersSent()
    modifies net, res
    ensures Performed(net, old(net.log), res, old(res.headers), AfterAuth(users, req, a, net.respond, |old(net.log)|, parse))
  {
    var isRegisterRoute := req.originalUrl == RegisterPath && req.verb == "POST";
    var body := a.body.AsValue();
    if isRegisterRoute && a.statusCode == 201 && Truthy(body) && Truthy(Prop(body, "userId")) {
      if users.Some? {
        var second := BuildProfileCall(users.value, body);
        var p := MakeHttpRequest(net, second, parse);
        WriteSagaReply(res, a, Some(p));
      } else {
        WriteSagaReply(res, a, None);
        assert net.log == old(net.log) + [];
      }
    } else {
      WriteRelay(res, a);
      assert net.log == old(net.log) + [];
    }
  }

  /** The `/api/auth` handler. */
  method AuthHandler(auth: Target, users: Option<Target>, req: IncomingRequest, res: ClientResponse,
                     net: Network, parse: string -> Option<Value>)
    requires !res.HeadersSent()
    modifies net, res
    ensures Performed(net, old(net.log), res, old(res.headers), AuthFlow(auth, users, ClientRequest(req.verb, req.originalUrl, req.headers, req.body, req.user),
                              net.respond, |old(net.log)|, parse))
  {
    var creq := ClientRequest(req.verb, req.originalUrl, req.headers, req.body, req.user);
    var first := BuildAuthCall(auth, creq);
    ForwardAuth(first, users, creq, res, net, parse);
  }

  /** Lines 153-219: the auth-service request, then the saga or the relay, or the transport failure. */
  method ForwardAuth(first: Call, users: Option<Target>, creq: ClientRequest, res: ClientResponse,
                     net: Network, parse: string -> Option<Value>)
    requires !res.HeadersSent()
    modifies net, res
    ensures Performed(net, old(net.log), res, old(res.headers), FlowFrom(first, users, creq, net.respond, |old(net.log)|, parse))
  {
    var r := MakeHttpRequest(net, first, parse);
    AnswerAuth(users, creq, r, res, net, parse);
    assert old(net.log) + [first] + AnswerFlow(users, creq, r, net.respond, |old(net.log)| + 1, parse).calls
        == old(net.log) + ([first] + AnswerFlow(users, creq, r, net.respond, |old(net.log)| + 1, parse).calls);
  }

  /** Lines 156-219: the reply to a settled auth-service call. */
  method AnswerAuth(users: Option<Target>, creq: ClientRequest, r: Result<BackendResponse, Rejection>, res: ClientResponse,
                    net: Network, parse: string -> Option<Value>)
    requires !res.HeadersSent()
    modifies net, res
    ensures Performed(net, old(net.log), res, old(res.headers), AnswerFlow(users, creq, r, net.respond, |old(net.log)|, parse))
  {
    match r
    case Err(e) =>
      WriteTransportFailure(res, e.message, AuthTimeoutText, AuthFailureText);
      assert net.log == old(net.log) + [];
    case Ok(a) =>
      FinishAuth(users, creq, a, res, net, parse);
  }

  /** Every `/api/auth` request goes to the auth service first, and leads to at most one more request. */
  lemma AuthCallsFirst(auth: Target, users: Option<Target>, req: ClientRequest,
                       respond: (nat, Call) -> Exchange, start: nat, parse: string -> Option<Value>)
    ensures var f := AuthFlow(auth, users, req, respond, start, parse);
      1 <= |f.calls| <= 2 && f.calls[0] == AuthCall(auth, req)
  {
  }

  /**
   * The profile request is made exactly when the auth service answered a
   * registration with 201 and a user id and a user-service URL is configured.
   */
  lemma SagaRunsOnlyOnRegistration(auth: Target, users: Option<Target>, req: ClientRequest,
                                   respond: (nat, Call) -> Exchange, start: nat, parse: string -> Option<Value>)
    ensures var f := AuthFlow(auth, users, req, respond, start, parse);
      var r := Settle(respond(start, AuthCall(auth, req)), parse);
      |f.calls| == 2 <==> users.Some? && r.Ok? && SagaApplies(req, r.value)
  {
  }

  /** The profile request: a POST of `{ name }` to the new user's profile path, with only a content type. */
  lemma SagaProfileRequest(auth: Target, users: Option<Target>, req: ClientRequest,
                           respond: (nat, Call) -> Exchange, start: nat, parse: string -> Option<Value>)
    requires |AuthFlow(auth, users, req, respond, start, parse).calls| == 2
    ensures var r := Settle(respond(start, AuthCall(auth, req)), parse);
      r.Ok? && users.Some? &&
      var body := r.value.body.AsValue();
      var c := AuthFlow(auth, users, req, respond, start, parse).calls[1];
      && c.options.verb == "POST"
      && c.options.hostname == users.value.hostname && c.options.port == users.value.port
      && c.options.path == ProfilePath(Prop(body, "userId"))
      && c.options.headers == map["Content-Type" := JsonContentType]
      && c.postData == Some(Obj(map["name" := ProfileName(body)]))
  {
    var r := Settle(respond(start, AuthCall(auth, req)), parse);
    var h := map["Content-Type" := JsonContentType, "host" := Str(users.value.Host())];
    assert h - {"host"} == map["Content-Type" := JsonContentType];
  }

  /** Outside the saga the auth service's answer is relayed as the generic proxy would. */
  lemma NonSagaRelays(auth: Target, users: Option<Target>, req: ClientRequest,
                      respond: (nat, Call) -> Exchange, start: nat, parse: string -> Option<Value>)
    requires var r := Settle(respond(start, AuthCall(auth, req)), parse);
      r.Ok? && !SagaApplies(req, r.value)
    ensures var f := AuthFlow(auth, users, req, respond, start, parse);
      |f.calls| == 1 && f.reply == RelayReply(Settle(respond(start, AuthCall(auth, req)), parse).value)
  {
  }

  /** In the saga the client always gets the auth service's 201, whatever happened to the profile. */
  lemma SagaKeepsAuthStatus(auth: Target, users: Option<Target>, req: ClientRequest,
                            respond: (nat, Call) -> Exchange, start: nat, parse: string -> Option<Value>)
    requires var r := Settle(respond(start, AuthCall(auth, req)), parse);
      r.Ok? && SagaApplies(req, r.value)
    ensures var f := AuthFlow(auth, users, req, respond, start, parse);
      f.reply.status == 201 && f.reply.payload.Json?
  {
  }

  /** A failed auth-service call gives 504 for a timeout and 502 otherwise, with no further request. */
  lemma AuthTransportFailure(auth: Target, users: Option<Target>, req: ClientRequest,
                             respond: (nat, Call) -> Exchange, start: nat, parse: string -> Option<Value>)
    requires !respond(start, AuthCall(auth, req)).Answered?
    ensures var f := AuthFlow(auth, users, req, respond, start, parse);
      && |f.calls| == 1
      && (respond(start, AuthCall(auth, req)).TimedOut? ==> f.reply == Reply(504, map[], Send(Str(AuthTimeoutText))))
      && (respond(start, AuthCall(auth, req)).RequestError? && respond(start, AuthCall(auth, req)).message != TimeoutMessage
          ==> f.reply == Reply(502, map[], Send(Str(AuthFailureText))))
  {
  }

  /**
   * When the auth body carries no note of its own, the client can tell the
   * profile outcomes apart: a warning exactly for a non-2xx answer, an error
   * exactly for a failed call.
   */
  lemma SagaOutcomesDistinguishable(auth: BackendResponse, profile: Option<Result<BackendResponse, Rejection>>)
    requires auth.body.AsValue().Obj?
    requires "profileCreationWarning" !in auth.body.AsValue().fields
    requires "profileCreationError" !in auth.body.AsValue().fields
    ensures var v := SagaReply(auth, profile).payload.value;
      && v.Obj?
      && ("profileCreationWarning" in v.fields <==>
            profile.Some? && profile.value.Ok? && !(200 <= profile.value.value.statusCode < 300))
      && ("profileCreationError" in v.fields <==> profile.Some? && profile.value.Err?)
  {
    var body := auth.body.AsValue();
    match profile
    case None =>
    case Some(Ok(p)) =>
      if !(200 <= p.statusCode < 300) {
        var v := WithNote(body, "profileCreationWarning", ProfileWarningText);
        assert "profileCreationError" !in Spread(body);
      }
    case Some(Err(_)) =>
      var v := WithNote(body, "profileCreationError", ProfileErrorText);
      assert "profileCreationWarning" !in Spread(body);
  }

  /** A numeric user id from the auth service is written into the profile path so that parseInt reads it back. */
  lemma ProfilePathCarriesUserId(n: int)
    ensures ProfilePath(IntValue(n)) == "/api/users/" + IntToString(n) + "/profile"
    ensures ParseInt(IntToString(n)) == Int(n)
  {
    ParseIntToString(n);
  }

  // ---------------------------------------------------------------------------
  // Protected routes

  /** `app.use(prefix, verifyToken, createManualProxyHandler(serviceName, serviceUrl))` */
  method ProtectedProxy(serviceName: string, target: Target, req: IncomingRequest, res: ClientResponse,
                        net: Network, verify: string -> Verification, parse: string -> Option<Value>)
    requires !res.HeadersSent()
    modifies req`user, res, net
    ensures var g := Gate(HeaderText(req.headers, "authorization"), verify);
      && (g.Deny? ==> net.log == old(net.log) && Delivered(res, old(res.headers), g.reply))
      && (g.Admit? ==>
            var call := ProxyCall(target, ClientRequest(req.verb, req.originalUrl, req.headers, req.body, g.claims));
            && req.user == g.claims
            && net.log == old(net.log) + [call]
            && Delivered(res, old(res.headers), ProxyReply(serviceName, Settle(net.respond(|old(net.log)|, call), parse))))
  {
    var next := VerifyToken(req, res, verify);
    if next {
      ManualProxy(serviceName, target, req, res, net, parse);
    }
  }
}
