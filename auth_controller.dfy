/**
 * The auth service's HTTP handlers: each maps the request body and what the
 * service returned (a value or the message of the error it threw) to one
 * status and JSON body.
 */
module AuthController {
  import opened Js
  import opened Wrappers
  import opened Http
  import opened AuthService

  const RegisteredMessage := "Utilizador registado com sucesso!"
  const RegisterDefaultMessage := "Erro ao registar utilizador."

  /** `!email || !password` on the request body. */
  predicate MissingCredentials(body: Value) {
    !Truthy(Prop(body, "email")) || !Truthy(Prop(body, "password"))
  }

  /**
   * `register(req, res)`. `outcome` is what `registerUser({ email, password })`
   * returned or threw; it plays no part when the body lacks a credential.
   */
  function Register(body: Value, outcome: Result<Value, string>): (r: Reply)
    ensures MissingCredentials(body) ==> r == MessageReply(400, RequiredMessage)
    ensures !MissingCredentials(body) && outcome.Ok? ==>
              r == JsonReply(201, Obj(map["message" := Str(RegisteredMessage),
                                          "userId" := Prop(outcome.value, "id"),
                                          "email" := Prop(outcome.value, "email")]))
    ensures r.status == 409 <==> !MissingCredentials(body) && outcome == Err(EmailTakenMessage)
    ensures r.status == 400 <==> MissingCredentials(body) || outcome == Err(RequiredMessage)
    ensures r.status == 500 <==>
              && !MissingCredentials(body) && outcome.Err?
              && outcome.error != EmailTakenMessage && outcome.error != RequiredMessage
    ensures r.status == 500 ==> r == ServerError(outcome.error, RegisterDefaultMessage)
    ensures r.status in {201, 400, 409, 500}
  {
    if MissingCredentials(body) then MessageReply(400, RequiredMessage)
    else match outcome
      case Ok(user) =>
        JsonReply(201, Obj(map["message" := Str(RegisteredMessage), "userId" := Prop(user, "id"), "email" := Prop(user, "email")]))
      case Err(m) =>
        if m == EmailTakenMessage then MessageReply(409, m)
        else if m == RequiredMessage then MessageReply(400, m)
        else ServerError(m, RegisterDefaultMessage)
  }

  /** `login(req, res)`: `outcome` is what `loginUser(email, password)` returned or threw. */
  function Login(body: Value, outcome: Result<Value, string>): (r: Reply)
    ensures MissingCredentials(body) ==> r == MessageReply(400, RequiredMessage)
    ensures !MissingCredentials(body) && outcome.Ok? ==> r == JsonReply(200, outcome.value)
    ensures r.status == 401 <==>
              !MissingCredentials(body) && outcome.Err? && StartsWith(outcome.error, InvalidCredentialsPrefix)
    ensures r.status == 401 ==> r == MessageReply(401, outcome.error)
    ensures !MissingCredentials(body) && outcome == Err(RequiredMessage) ==> r == MessageReply(400, RequiredMessage)
    ensures r.status == 500 <==>
              && !MissingCredentials(body) && outcome.Err?
              && !StartsWith(outcome.error, InvalidCredentialsPrefix) && outcome.error != RequiredMessage
    ensures r.status == 500 ==> r == ServerError(outcome.error, LoginFailedMessage)
    ensures r.status in {200, 400, 401, 500}
  {
    if MissingCredentials(body) then MessageReply(400, RequiredMessage)
    else match outcome
      case Ok(result) => JsonReply(200, result)
      case Err(m) =>
        RequiredMessageNotCredential();
        if StartsWith(m, InvalidCredentialsPrefix) then MessageReply(401, m)
        else if m == RequiredMessage then MessageReply(400, m)
        else ServerError(m, LoginFailedMessage)
  }

  /** The "required" message is not a credential failure: it starts with 'E', not 'C'. */
  lemma RequiredMessageNotCredential()
    ensures !StartsWith(RequiredMessage, InvalidCredentialsPrefix)
  {
    assert RequiredMessage[0] == 'E' && InvalidCredentialsPrefix[0] == 'C';
    assert RequiredMessage[..|InvalidCredentialsPrefix|][0] == 'E';
  }

  /** A body without both credentials gets 400 whatever the service would have done: it is not called. */
  lemma GuardIgnoresService(body: Value, o1: Result<Value, string>, o2: Result<Value, string>)
    requires MissingCredentials(body)
    ensures Register(body, o1) == Register(body, o2)
    ensures Login(body, o1) == Login(body, o2)
  {
  }

  /** The 201 body names the new user by the id and email the service stored. */
  lemma RegisteredReplyNamesUser(body: Value, u: User)
    requires !MissingCredentials(body)
    ensures var v := Register(body, Ok(PublicView(u))).payload.value;
      Prop(v, "userId") == IntValue(u.id) && Prop(v, "email") == u.email && !("password" in v.fields)
  {
  }

  /**
   * Registering an email that is already taken reaches the client as a 500
   * with the generic message: the service's own duplicate check is caught
   * in its try block, so only a unique-constraint error from the insert
   * gives 409.
   */
  lemma DuplicateEmailIsServerError(body: Value)
    requires !MissingCredentials(body)
    ensures Register(body, Err(RegisterFailedMessage)) == MessageReply(500, RegisterFailedMessage)
    ensures Register(body, Err(EmailTakenMessage)).status == 409
  {
  }

  /** Unknown users and wrong passwords both reach the client as 401 with the service's message. */
  lemma CredentialFailuresAre401(body: Value)
    requires !MissingCredentials(body)
    ensures Login(body, Err(UserNotFoundMessage)) == MessageReply(401, UserNotFoundMessage)
    ensures Login(body, Err(WrongPasswordMessage)) == MessageReply(401, WrongPasswordMessage)
    ensures Login(body, Err(LoginFailedMessage)) == MessageReply(500, LoginFailedMessage)
  {
    CredentialErrorsPassThrough();
    assert StartsWith(UserNotFoundMessage, InvalidCredentialsPrefix);
    assert StartsWith(WrongPasswordMessage, InvalidCredentialsPrefix);
    assert LoginFailedMessage[..|InvalidCredentialsPrefix|][0] != InvalidCredentialsPrefix[0];
    assert LoginFailedMessage != RequiredMessage by {
      assert LoginFailedMessage[1] != RequiredMessage[1];
    }
  }
}
