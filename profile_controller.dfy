/**
 * The user service's profile handlers. Each reads the user id from the URL
 * with `parseInt`, refuses one that is not a number, calls the profile
 * service and maps what it returned or threw to one status and body.
 */
module ProfileController {
  import opened Js
  import opened Wrappers
  import opened Http
  import opened ProfileService

  const InvalidUserIdMessage := "userId inválido na URL."
  const UnknownUserMarker := "Utilizador com ID"
  const RequiredMarker := "userId é obrigatório"
  const CreateDefaultMessage := "Erro ao criar perfil do utilizador."
  const NotFoundMessage := "Perfil não encontrado para este utilizador."
  const GetDefaultMessage := "Erro ao obter perfil do utilizador."
  const UpdateNotFoundMessage := "Perfil não encontrado para atualizar."
  const UpdateDefaultMessage := "Erro ao atualizar perfil do utilizador."
  const DeleteNotFoundMessage := "Perfil não encontrado para eliminar."
  const DeleteDefaultMessage := "Erro ao eliminar perfil do utilizador."

  /** `parseInt(req.params.userId, 10)` */
  function UrlUserId(params: Value): Number {
    ParseIntValue(Prop(params, "userId"))
  }

  /** A conflict: the profile exists already, or the user does not. */
  predicate IsConflict(m: string) {
    Contains(m, ExistsMarker) || Contains(m, UnknownUserMarker)
  }

  /** `createUserProfile`'s reply: 201 with the profile, 409 for a conflict, 400 for a missing id, 500 otherwise. */
  function CreateReply(outcome: Result<Record, string>): (r: Reply)
    ensures outcome.Ok? ==> r == JsonReply(201, Obj(outcome.value))
    ensures r.status == 409 <==> outcome.Err? && IsConflict(outcome.error)
    ensures r.status == 400 <==> outcome.Err? && !IsConflict(outcome.error) && Contains(outcome.error, RequiredMarker)
    ensures r.status == 500 <==> outcome.Err? && !IsConflict(outcome.error) && !Contains(outcome.error, RequiredMarker)
    ensures r.status == 409 || r.status == 400 ==> r == MessageReply(r.status, outcome.error)
    ensures r.status == 500 ==> r == ServerError(outcome.error, CreateDefaultMessage)
  {
    match outcome
    case Ok(profile) => JsonReply(201, Obj(profile))
    case Err(m) =>
      if IsConflict(m) then MessageReply(409, m)
      else if Contains(m, RequiredMarker) then MessageReply(400, m)
      else ServerError(m, CreateDefaultMessage)
  }

  /** The service's create errors: a missing id is 400, the two conflicts 409, the generic failure 500. */
  lemma CreateErrorsClassified(userId: int)
    ensures CreateReply(Err(CreateRequiredMessage)) == MessageReply(400, CreateRequiredMessage)
    ensures CreateReply(Err(ExistsMessage(userId))) == MessageReply(409, ExistsMessage(userId))
    ensures CreateReply(Err(UnknownUserMessage(userId))) == MessageReply(409, UnknownUserMessage(userId))
    ensures CreateReply(Err(CreateFailedMessage)) == MessageReply(500, CreateFailedMessage)
  {
    RequiredMessageClassified();
    ExistsMessageConflicts(userId);
    UnknownUserMessageConflicts(userId);
    FailedMessageUnclassified();
  }

  lemma RequiredMessageClassified()
    ensures !IsConflict(CreateRequiredMessage) && Contains(CreateRequiredMessage, RequiredMarker)
  {
    assert 'P' !in CreateRequiredMessage && 'U' !in CreateRequiredMessage;
    MissingCharNotContained(CreateRequiredMessage, ExistsMarker, 0);
    MissingCharNotContained(CreateRequiredMessage, UnknownUserMarker, 0);
    ConcatContainsHead(RequiredMarker, " para criar um perfil.");
  }

  lemma ExistsMessageConflicts(userId: int)
    ensures IsConflict(ExistsMessage(userId))
  {
    ExistsMessageMarked(userId);
  }

  lemma UnknownUserMessageConflicts(userId: int)
    ensures IsConflict(UnknownUserMessage(userId))
  {
    var tail := " " + IntToString(userId) + " não encontrado na tabela Users.";
    assert UnknownUserMessage(userId) == UnknownUserMarker + tail;
    ConcatContainsHead(UnknownUserMarker, tail);
  }

  lemma FailedMessageUnclassified()
    ensures !IsConflict(CreateFailedMessage) && !Contains(CreateFailedMessage, RequiredMarker)
  {
    FailedMessageLacks('P');
    FailedMessageLacks('U');
    FailedMessageLacks('I');
    MissingCharNotContained(CreateFailedMessage, ExistsMarker, 0);
    MissingCharNotContained(CreateFailedMessage, UnknownUserMarker, 0);
    MissingCharNotContained(CreateFailedMessage, RequiredMarker, 4);
  }

  /** None of the markers' capitals occurs in the insert failure's message. */
  lemma FailedMessageLacks(c: char)
    requires c == 'P' || c == 'U' || c == 'I'
    ensures c !in CreateFailedMessage
  {
    var head, tail := "Não foi possível criar", " o perfil do utilizador.";
    assert c !in head;
    assert c !in tail;
  }

  /**
   * What an Error the create's try block throws comes to at the client: a
   * duplicate and a foreign-key failure are both conflicts, anything else is
   * the generic 500.
   */
  lemma CaughtReply(userId: int, e: Thrown)
    ensures CreateReply(Err(Caught(userId, e))) ==
      if e.name == UniqueErrorName || Contains(e.message, ExistsMarker) then MessageReply(409, ExistsMessage(userId))
      else if e.name == ForeignKeyErrorName then MessageReply(409, UnknownUserMessage(userId))
      else MessageReply(500, CreateFailedMessage)
  {
    CreateErrorsClassified(userId);
  }

  /**
   * `createUserProfile(req, res)`; `lookupFault` and `fault` are how the
   * database rejects the lookup and the insert, if it does.
   */
  method CreateUserProfile(store: ProfileStore, params: Value, body: Value, now: Value, lookupFault: Option<Thrown>, fault: Option<Thrown>)
    returns (reply: Reply)
    requires store.Valid()
    modifies store
    ensures store.Valid()
    ensures UrlUserId(params).NaN? ==> reply == MessageReply(400, InvalidUserIdMessage) && store.profiles == old(store.profiles)
    ensures UrlUserId(params) == Int(0) ==> reply == MessageReply(400, CreateRequiredMessage) && store.profiles == old(store.profiles)
    ensures var n := UrlUserId(params); n.Int? && n.i != 0 && lookupFault.Some? ==>
              reply == CreateReply(Err(Caught(n.i, lookupFault.value))) && store.profiles == old(store.profiles)
    ensures var n := UrlUserId(params); n.Int? && n.i != 0 && lookupFault.None? && n.i in old(store.profiles) ==>
              reply == MessageReply(409, ExistsMessage(n.i)) && store.profiles == old(store.profiles)
    ensures var n := UrlUserId(params);
              n.Int? && n.i != 0 && lookupFault.None? && n.i !in old(store.profiles) && (body.Null? || body.Undefined?) ==>
              reply == MessageReply(500, CreateFailedMessage) && store.profiles == old(store.profiles)
    ensures var n := UrlUserId(params);
              n.Int? && n.i != 0 && lookupFault.None? && n.i !in old(store.profiles) && !(body.Null? || body.Undefined?)
              && fault.Some? ==>
              && reply == CreateReply(Err(Caught(n.i, fault.value)))
              && store.profiles == old(store.profiles)
    ensures var n := UrlUserId(params);
              n.Int? && n.i != 0 && lookupFault.None? && n.i !in old(store.profiles) && !(body.Null? || body.Undefined?)
              && fault.None? && n.i !in store.users ==>
              reply == MessageReply(409, UnknownUserMessage(n.i)) && store.profiles == old(store.profiles)
    ensures var n := UrlUserId(params);
              n.Int? && n.i != 0 && lookupFault.None? && n.i !in old(store.profiles) && !(body.Null? || body.Undefined?)
              && fault.None? && n.i in store.users ==>
              var profile := NewProfile(n.i, body, old(store.nextId), now);
              reply == JsonReply(201, Obj(profile)) && store.profiles == old(store.profiles)[n.i := profile]
  {
    var userId := UrlUserId(params);
    if userId.NaN? {
      return MessageReply(400, InvalidUserIdMessage);
    }
    CreateErrorsClassified(userId.i);
    var newProfile := store.CreateUserProfile(userId.i, body, now, lookupFault, fault);
    reply := CreateReply(newProfile);
  }

  /** `getUserProfile(req, res)` */
  method GetUserProfile(store: ProfileStore, params: Value, fault: bool) returns (reply: Reply)
    requires store.Valid()
    ensures UrlUserId(params).NaN? ==> reply == MessageReply(400, InvalidUserIdMessage)
    ensures UrlUserId(params) == Int(0) ==> reply == MessageReply(500, GetRequiredMessage)
    ensures var n := UrlUserId(params); n.Int? && n.i != 0 && fault ==> reply == MessageReply(500, GetFailedMessage)
    ensures var n := UrlUserId(params); n.Int? && n.i != 0 && !fault && n.i in store.profiles ==>
              reply == JsonReply(200, Obj(store.profiles[n.i]))
    ensures var n := UrlUserId(params); n.Int? && n.i != 0 && !fault && n.i !in store.profiles ==>
              reply == MessageReply(404, NotFoundMessage)
  {
    var userId := UrlUserId(params);
    if userId.NaN? {
      return MessageReply(400, InvalidUserIdMessage);
    }
    var profile := store.GetUserProfileByUserId(userId.i, fault);
    reply := FoundReply(profile, NotFoundMessage, GetDefaultMessage);
  }

  /** `updateUserProfile(req, res)`: no check of who is asking. */
  method UpdateUserProfile(store: ProfileStore, params: Value, body: Value, now: Value, fault: bool) returns (reply: Reply)
    requires store.Valid()
    modifies store
    ensures store.Valid()
    ensures UrlUserId(params).NaN? ==> reply == MessageReply(400, InvalidUserIdMessage) && store.profiles == old(store.profiles)
    ensures UrlUserId(params) == Int(0) ==> reply == MessageReply(500, UpdateRequiredMessage) && store.profiles == old(store.profiles)
    ensures var n := UrlUserId(params); n.Int? && n.i != 0 && fault ==>
              reply == MessageReply(500, UpdateFailedMessage) && store.profiles == old(store.profiles)
    ensures var n := UrlUserId(params); n.Int? && n.i != 0 && !fault && n.i !in old(store.profiles) ==>
              reply == MessageReply(404, UpdateNotFoundMessage) && store.profiles == old(store.profiles)
    ensures var n := UrlUserId(params); n.Int? && n.i != 0 && !fault && n.i in old(store.profiles) ==>
              var profile := UpdatedProfile(old(store.profiles)[n.i], body, now);
              reply == JsonReply(200, Obj(profile)) && store.profiles == old(store.profiles)[n.i := profile]
  {
    var userId := UrlUserId(params);
    if userId.NaN? {
      return MessageReply(400, InvalidUserIdMessage);
    }
    var updatedProfile := store.UpdateUserProfile(userId.i, body, now, fault);
    reply := FoundReply(updatedProfile, UpdateNotFoundMessage, UpdateDefaultMessage);
  }

  /** `deleteUserProfile(req, res)`: no check of who is asking. */
  method DeleteUserProfile(store: ProfileStore, params: Value, fault: bool) returns (reply: Reply)
    requires store.Valid()
    modifies store
    ensures store.Valid()
    ensures UrlUserId(params).NaN? ==> reply == MessageReply(400, InvalidUserIdMessage) && store.profiles == old(store.profiles)
    ensures UrlUserId(params).Int? ==> DeleteAnswered(store, old(store.profiles), UrlUserId(params).i, fault, reply)
  {
    var userId := UrlUserId(params);
    if userId.NaN? {
      return MessageReply(400, InvalidUserIdMessage);
    }
    reply := DeleteByUserId(store, userId.i, fault);
  }

  /** What the delete handler answers for a numeric user id, and what the table then holds. */
  ghost predicate DeleteAnswered(store: ProfileStore, before: map<int, Record>, n: int, fault: bool, reply: Reply)
    reads store
  {
    && (n == 0 ==> reply == MessageReply(500, DeleteRequiredMessage) && store.profiles == before)
    && (n != 0 && fault ==> reply == MessageReply(500, DeleteFailedMessage) && store.profiles == before)
    && (n != 0 && !fault && n !in before ==> reply == MessageReply(404, DeleteNotFoundMessage) && store.profiles == before)
    && (n != 0 && !fault && n in before ==> reply == Reply(204, map[], NoContent) && store.profiles == before - {n})
  }

  /** The delete handler once the user id has been parsed. */
  method DeleteByUserId(store: ProfileStore, n: int, fault: bool) returns (reply: Reply)
    requires store.Valid()
    modifies store
    ensures store.Valid()
    ensures DeleteAnswered(store, old(store.profiles), n, fault, reply)
  {
    var success := store.DeleteUserProfile(n, fault);
    reply := RemovedReply(success, DeleteNotFoundMessage, DeleteDefaultMessage);
  }

  /** A user id of 0 is a client error when creating, but a server error when reading. */
  lemma ZeroUserIdAnswers()
    ensures CreateReply(Err(CreateRequiredMessage)).status == 400
    ensures FoundReply(Err(GetRequiredMessage), NotFoundMessage, GetDefaultMessage).status == 500
  {
    RequiredMessageClassified();
  }
}
