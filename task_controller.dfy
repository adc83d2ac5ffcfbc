/**
 * The task service's HTTP handlers. Each handler checks the request, calls
 * the task service with `parseInt`-converted ids, and maps what the service
 * returned or threw to one status and body.
 */
module TaskController {
  import opened Js
  import opened Wrappers
  import opened Http
  import opened TaskService
  import opened Rows

  const CreateMissingMessage := "Título e ID do utilizador são obrigatórios."
  const RequiredMarker := "obrigatórios"
  const CreateDefaultMessage := "Erro ao criar tarefa."
  const QueryMissingMessage := "userId é obrigatório como parâmetro de query."
  const ListDefaultMessage := "Erro ao obter tarefas."
  const TaskNotFoundMessage := "Tarefa não encontrada."
  const GetDefaultMessage := "Erro ao obter tarefa."
  const UpdateMissingMessage := "userId_for_update_permission é obrigatório no corpo para este teste."
  const UpdateNotFoundMessage := "Tarefa não encontrada ou não tem permissão para atualizar."
  const UpdateDefaultMessage := "Erro ao atualizar tarefa."
  const DeleteMissingMessage := "userId_for_delete_permission é obrigatório no corpo para este teste."
  const DeleteNotFoundMessage := "Tarefa não encontrada ou não tem permissão para eliminar."
  const DeleteDefaultMessage := "Erro ao eliminar tarefa."

  /** A list of rows as `res.json` receives it. */
  function RowsValue(rows: seq<Record>): (v: Value)
    ensures v.Arr? && |v.items| == |rows|
    ensures forall i :: 0 <= i < |rows| ==> v.items[i] == Obj(rows[i])
  {
    Arr(seq(|rows|, i requires 0 <= i < |rows| => Obj(rows[i])))
  }

  // ---------------------------------------------------------------------------
  // What each handler answers once the service has returned or thrown

  /** `createTask`'s reply: 201 with the task, 400 for a "required" error, 500 otherwise. */
  function CreateTaskReply(outcome: Result<Record, string>): (r: Reply)
    ensures outcome.Ok? ==> r == JsonReply(201, Obj(outcome.value))
    ensures r.status == 400 <==> outcome.Err? && Contains(outcome.error, RequiredMarker)
    ensures r.status == 400 ==> r == MessageReply(400, outcome.error)
    ensures r.status == 500 <==> outcome.Err? && !Contains(outcome.error, RequiredMarker)
    ensures r.status == 500 ==> r == ServerError(outcome.error, CreateDefaultMessage)
  {
    match outcome
    case Ok(task) => JsonReply(201, Obj(task))
    case Err(m) => if Contains(m, RequiredMarker) then MessageReply(400, m) else ServerError(m, CreateDefaultMessage)
  }

  /** `getAllTasks`'s reply: 200 with the list, 500 with the error otherwise. */
  function ListReply(outcome: Result<seq<Record>, string>): (r: Reply)
    ensures outcome.Ok? ==> r == JsonReply(200, RowsValue(outcome.value))
    ensures outcome.Err? ==> r == ServerError(outcome.error, ListDefaultMessage)
  {
    match outcome
    case Ok(tasks) => JsonReply(200, RowsValue(tasks))
    case Err(m) => ServerError(m, ListDefaultMessage)
  }

  /** The service's "required" error carries the marker the handler looks for. */
  lemma RequiredMessageMarked()
    ensures Contains(CreateRequiredMessage, RequiredMarker)
  {
    var head, tail := "Título e ID do utilizador são ", " para criar uma tarefa.";
    assert (head + RequiredMarker + tail)[|head|..|head| + |RequiredMarker|] == RequiredMarker;
    assert OccursAt(CreateRequiredMessage, RequiredMarker, |head|);
  }

  /** The service's insert failure does not: it lacks the marker's 'ó'. */
  lemma FailedMessageUnmarked()
    ensures !Contains(CreateFailedMessage, RequiredMarker)
  {
    assert RequiredMarker[7] !in CreateFailedMessage;
    MissingCharNotContained(CreateFailedMessage, RequiredMarker, 7);
  }

  /** The service's own "required" error is a 400; its insert failure a 500. */
  lemma CreateErrorsClassified()
    ensures CreateTaskReply(Err(CreateRequiredMessage)) == MessageReply(400, CreateRequiredMessage)
    ensures CreateTaskReply(Err(CreateFailedMessage)) == MessageReply(500, CreateFailedMessage)
  {
    RequiredMessageMarked();
    FailedMessageUnmarked();
  }

  // ---------------------------------------------------------------------------
  // The handlers

  /** `createTask(req, res)` */
  method CreateTask(store: TaskStore, body: Value, now: Value, fault: bool) returns (reply: Reply)
    requires store.Valid()
    modifies store
    ensures store.Valid()
    ensures var taskData := Obj(Spread(body));
      && (!Truthy(Prop(taskData, "title")) || !Truthy(Prop(taskData, "userId")) ==>
            reply == MessageReply(400, CreateMissingMessage) && store.tasks == old(store.tasks))
      && var id := InsertId(Spread(taskData), old(store.nextId));
      && (Truthy(Prop(taskData, "title")) && Truthy(Prop(taskData, "userId")) && (fault || id in old(store.tasks)) ==>
            reply == MessageReply(500, CreateFailedMessage) && store.tasks == old(store.tasks))
      && (Truthy(Prop(taskData, "title")) && Truthy(Prop(taskData, "userId")) && !fault && id !in old(store.tasks) ==>
            var row := NewRow(Spread(taskData), id, now);
            reply == JsonReply(201, Obj(row)) && store.tasks == old(store.tasks)[id := row])
  {
    var taskData := Obj(Spread(body));
    if !Truthy(Prop(taskData, "title")) || !Truthy(Prop(taskData, "userId")) {
      return MessageReply(400, CreateMissingMessage);
    }
    CreateErrorsClassified();
    var task := store.CreateTask(taskData, now, fault);
    reply := CreateTaskReply(task);
  }

  /** Passing no extra filters leaves the `where` object as it is. */
  lemma NoFilters(where: Record)
    ensures where + map[] == where
  {
  }

  /** `getAllTasks(req, res)`: `userId` comes from the query string. */
  method GetAllTasks(store: TaskStore, query: Value, fault: bool) returns (reply: Reply)
    requires store.Valid()
    ensures var userId := Prop(query, "userId"); var n := Num(ParseIntValue(userId));
      && (!Truthy(userId) ==> reply == MessageReply(400, QueryMissingMessage))
      && (Truthy(userId) && !Truthy(n) ==> reply == MessageReply(500, ListRequiredMessage))
      && (Truthy(userId) && Truthy(n) && fault ==> reply == MessageReply(500, ListFailedMessage))
      && (Truthy(userId) && Truthy(n) && !fault ==> reply == JsonReply(200, RowsValue(store.FindAll(map["userId" := n]))))
  {
    var userId := Prop(query, "userId");
    if !Truthy(userId) {
      return MessageReply(400, QueryMissingMessage);
    }
    var n := Num(ParseIntValue(userId));
    var tasks := store.GetAllTasksByUserId(n, map[], fault);
    NoFilters(map["userId" := n]);
    reply := ListReply(tasks);
  }

  /** `getTaskById(req, res)`: no owner is passed, so any task can be read. */
  method GetTaskById(store: TaskStore, params: Value, fault: bool) returns (reply: Reply)
    requires store.Valid()
    ensures var taskId := ParseIntValue(Prop(params, "id"));
      && (fault || taskId.NaN? ==> reply == MessageReply(500, GetFailedMessage))
      && (!fault && taskId.Int? && taskId.i >= 0 && taskId.i in store.tasks ==>
            reply == JsonReply(200, Obj(store.tasks[taskId.i])))
      && (!fault && taskId.Int? && !(taskId.i >= 0 && taskId.i in store.tasks) ==>
            reply == MessageReply(404, TaskNotFoundMessage))
  {
    var taskId := ParseIntValue(Prop(params, "id"));
    var task := store.GetTaskById(taskId, Undefined, fault);
    reply := FoundReply(task, TaskNotFoundMessage, GetDefaultMessage);
  }

  /** `updateTask(req, res)`: the owner comes from `userId_for_update_permission` in the body. */
  method UpdateTask(store: TaskStore, params: Value, body: Value, now: Value, fault: bool) returns (reply: Reply)
    requires store.Valid()
    modifies store
    ensures store.Valid()
    ensures !Truthy(Prop(body, "userId_for_update_permission")) ==>
              reply == MessageReply(400, UpdateMissingMessage) && store.tasks == old(store.tasks)
    ensures var owner := ParseIntValue(Prop(body, "userId_for_update_permission"));
      var taskId := ParseIntValue(Prop(params, "id"));
      Truthy(Prop(body, "userId_for_update_permission")) && (fault || taskId.NaN? || owner.NaN?) ==>
        reply == MessageReply(500, UpdateFailedMessage) && store.tasks == old(store.tasks)
    ensures var owner := ParseIntValue(Prop(body, "userId_for_update_permission"));
      var taskId := ParseIntValue(Prop(params, "id"));
      Truthy(Prop(body, "userId_for_update_permission")) && !fault && taskId.Int? && owner.Int?
        && !Owns(old(store.tasks), taskId, owner) ==>
        reply == MessageReply(404, UpdateNotFoundMessage) && store.tasks == old(store.tasks)
    ensures var owner := ParseIntValue(Prop(body, "userId_for_update_permission"));
      var taskId := ParseIntValue(Prop(params, "id"));
      Truthy(Prop(body, "userId_for_update_permission")) && !fault && owner.Int? && Owns(old(store.tasks), taskId, owner) ==>
        var row := UpdatedTask(old(store.tasks)[taskId.i], body, now);
        reply == JsonReply(200, Obj(row)) && store.tasks == old(store.tasks)[taskId.i := row]
  {
    var owner := Prop(body, "userId_for_update_permission");
    if !Truthy(owner) {
      return MessageReply(400, UpdateMissingMessage);
    }
    var taskId := ParseIntValue(Prop(params, "id"));
    var task := store.UpdateTask(taskId, ParseIntValue(owner), body, now, fault);
    reply := FoundReply(task, UpdateNotFoundMessage, UpdateDefaultMessage);

  }

  /** `deleteTask(req, res)`: the owner comes from `userId_for_delete_permission` in the body. */
  method DeleteTask(store: TaskStore, params: Value, body: Value, fault: bool) returns (reply: Reply)
    requires store.Valid()
    modifies store
    ensures store.Valid()
    ensures var owner := Prop(body, "userId_for_delete_permission");
      var taskId := ParseIntValue(Prop(params, "id"));
      && (!Truthy(owner) ==> reply == MessageReply(400, DeleteMissingMessage) && store.tasks == old(store.tasks))
      && (Truthy(owner) && (fault || taskId.NaN? || ParseIntValue(owner).NaN?) ==>
            reply == MessageReply(500, DeleteFailedMessage) && store.tasks == old(store.tasks))
      && (Truthy(owner) && !fault && taskId.Int? && ParseIntValue(owner).Int? ==>
            if Owns(old(store.tasks), taskId, ParseIntValue(owner))
            then reply == Reply(204, map[], NoContent) && store.tasks == old(store.tasks) - {taskId.i as nat}
            else reply == MessageReply(404, DeleteNotFoundMessage) && store.tasks == old(store.tasks))
  {
    var owner := Prop(body, "userId_for_delete_permission");
    if !Truthy(owner) {
      return MessageReply(400, DeleteMissingMessage);
    }
    var taskId := ParseIntValue(Prop(params, "id"));
    var success := store.DeleteTask(taskId, ParseIntValue(owner), fault);
    reply := RemovedReply(success, DeleteNotFoundMessage, DeleteDefaultMessage);
  }
}
