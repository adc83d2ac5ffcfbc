/**
 * The task service's table and its five operations. A task is a row of
 * column values; the table maps each id to its row. Queries are `where`
 * objects matched column by column; the database's failures are a `fault`
 * parameter that each operation turns into its own error message.
 */
module TaskService {
  import opened Js
  import opened Wrappers
  import opened Rows

  const CreateRequiredMessage := "Título e ID do utilizador são " + "obrigatórios" + " para criar uma tarefa."
  const CreateFailedMessage := "Não foi possível criar" + " a tarefa na base de dados."
  const GetFailedMessage := "Não foi possível obter a tarefa da base de dados."
  const ListRequiredMessage := "ID do utilizador é obrigatório para obter tarefas."
  const ListFailedMessage := "Não foi possível obter as tarefas da base de dados."
  const UpdateFailedMessage := "Não foi possível atualizar a tarefa na base de dados."
  const DeleteFailedMessage := "Não foi possível eliminar a tarefa da base de dados."

  const DefaultStatus := Str("pendente")
  const DefaultPriority := Str("média")

  /** The columns of the Tasks table. */
  const Columns: set<string> := {"id", "title", "description", "status", "priority", "dueDate", "userId", "createdAt", "updatedAt"}

  /** The columns `Task.create` and `task.update` take from the caller's data. */
  const DataColumns: set<string> := {"title", "description", "status", "priority", "dueDate", "userId"}

  /** The fields `updateTask` deletes from the update before applying it. */
  const ProtectedFields: set<string> := {"userId_for_update_permission", "id", "userId", "createdAt"}

  /** The value `Task.create` stores in a data column: the given one, or the column's default. */
  function ColumnValue(data: Record, k: string): Value {
    if k in data && data[k] != Undefined then data[k]
    else if k == "status" then DefaultStatus
    else if k == "priority" then DefaultPriority
    else Null
  }

  /**
   * The id `Task.create(taskData)` inserts under: the caller's own `id` when it
   * is a positive integer, otherwise the table's next auto-increment value.
   */
  function InsertId(data: Record, nextId: nat): (id: nat)
    ensures id == nextId || (id > 0 && "id" in data && data["id"] == IntValue(id))
    ensures forall i: int :: i > 0 && "id" in data && data["id"] == IntValue(i) ==> id == i
  {
    if "id" in data && data["id"].Num? && data["id"].n.Int? && data["id"].n.i > 0 then data["id"].n.i else nextId
  }

  /** The `createdAt` a new row keeps: the caller's when it is truthy, otherwise `now`. */
  function CreatedAt(data: Record, now: Value): (v: Value)
    ensures Truthy(Prop(Obj(data), "createdAt")) ==> v == data["createdAt"]
    ensures !Truthy(Prop(Obj(data), "createdAt")) ==> v == now
  {
    if "createdAt" in data && Truthy(data["createdAt"]) then data["createdAt"] else now
  }

  /** The row `Task.create(taskData)` inserts under the given id at time `now`. */
  function NewRow(data: Record, id: nat, now: Value): (row: Record)
    ensures row.Keys == Columns
    ensures row["id"] == IntValue(id) && row["createdAt"] == CreatedAt(data, now) && row["updatedAt"] == now
    ensures forall k :: k in DataColumns ==> row[k] == ColumnValue(data, k)
  {
    map k | k in Columns ::
      if k == "id" then IntValue(id)
      else if k == "createdAt" then CreatedAt(data, now)
      else if k == "updatedAt" then now
      else ColumnValue(data, k)
  }

  /** The row `task.update(cleanUpdateData)` leaves: the update with the protected fields deleted, applied to the data columns. */
  function UpdatedTask(row: Record, updateData: Value, now: Value): Record {
    Updated(row, Strip(updateData, ProtectedFields), DataColumns, now)
  }

  /** The task with this id exists and belongs to the user (`where: { id: taskId, userId }`). */
  predicate Owns(tasks: map<nat, Record>, taskId: Number, userId: Number) {
    taskId.Int? && taskId.i >= 0 && taskId.i in tasks && "userId" in tasks[taskId.i]
    && tasks[taskId.i]["userId"] == Num(userId)
  }

  /** The Tasks table: rows by id, and the next auto-increment id. */
  class TaskStore {
    var tasks: map<nat, Record>
    var nextId: nat

    /** Every row has all the columns and its own id; ids are below the next one. */
    predicate Valid()
      reads this
    {
      && nextId >= 1
      && forall id :: id in tasks ==> id < nextId && tasks[id].Keys == Columns && tasks[id]["id"] == IntValue(id)
    }

    constructor ()
      ensures Valid() && tasks == map[] && nextId == 1
    {
      tasks := map[];
      nextId := 1;
    }

    /**
     * `Task.findOne({ where })` for a `where` that names an id: the row with
     * that id, if it matches; the query fails when a condition is NaN.
     */
    function FindOne(where: Record): (r: Result<Option<Record>, string>)
      reads this
      requires "id" in where
      ensures r.Err? <==> Rejected(where)
      ensures r.Err? ==> r.error == UnknownColumnMessage
      ensures r.Ok? && r.value.Some? ==> exists id :: id in tasks && tasks[id] == r.value.value && Matches(r.value.value, where)
      ensures Valid() && r.Ok? && r.value.None? ==> forall id :: id in tasks ==> !Matches(tasks[id], where)
    {
      var key := where["id"];
      if Rejected(where) then Err(UnknownColumnMessage)
      else if key.Num? && key.n.Int? && key.n.i >= 0 && key.n.i in tasks && Matches(tasks[key.n.i], where)
      then Ok(Some(tasks[key.n.i]))
      else Ok(None)
    }

    /** The matching rows with ids from i up to the next id, in id order. */
    function ScanFrom(where: Record, i: nat): (rows: seq<Record>)
      reads this
      requires i <= nextId
      ensures forall row :: row in rows <==> exists id :: i <= id < nextId && id in tasks && tasks[id] == row && Matches(row, where)
      decreases nextId - i
    {
      if i == nextId then []
      else (if i in tasks && Matches(tasks[i], where) then [tasks[i]] else []) + ScanFrom(where, i + 1)
    }

    /** `Task.findAll({ where })`: every row that matches, listed by id. */
    function FindAll(where: Record): (rows: seq<Record>)
      reads this
      ensures Valid() ==> forall row :: row in rows <==> exists id :: id in tasks && tasks[id] == row && Matches(row, where)
    {
      ScanFrom(where, 0)
    }

    /**
     * `createTask(taskData)`; `fault` says the insert failed. An id that is
     * already taken fails the insert with a duplicate primary key.
     */
    method CreateTask(taskData: Value, now: Value, fault: bool) returns (r: Result<Record, string>)
      requires Valid()
      modifies this
      ensures Valid()
      ensures !Truthy(Prop(taskData, "title")) || !Truthy(Prop(taskData, "userId")) ==> r == Err(CreateRequiredMessage)
      ensures (Truthy(Prop(taskData, "title")) && Truthy(Prop(taskData, "userId"))
                && (fault || InsertId(Spread(taskData), old(nextId)) in old(tasks))) ==> r == Err(CreateFailedMessage)
      ensures r.Ok? <==> Truthy(Prop(taskData, "title")) && Truthy(Prop(taskData, "userId")) && !fault
                           && InsertId(Spread(taskData), old(nextId)) !in old(tasks)
      ensures r.Err? ==> tasks == old(tasks) && nextId == old(nextId)
      ensures r.Ok? ==> var id := InsertId(Spread(taskData), old(nextId));
                && r.value == NewRow(Spread(taskData), id, now)
                && tasks == old(tasks)[id := r.value]
                && nextId == if id < old(nextId) then old(nextId) else id + 1
    {
      if !Truthy(Prop(taskData, "title")) || !Truthy(Prop(taskData, "userId")) {
        return Err(CreateRequiredMessage);
      }
      var data := Spread(taskData);
      var id := InsertId(data, nextId);
      if fault || id in tasks {
        return Err(CreateFailedMessage);
      }
      var newTask := NewRow(data, id, now);
      tasks := tasks[id := newTask];
      if id >= nextId {
        nextId := id + 1;
      }
      r := Ok(newTask);
    }

    /** `getTaskById(taskId, userId)`; an `Undefined` userId means the owner is not checked. */
    method GetTaskById(taskId: Number, userId: Value, fault: bool) returns (r: Result<Option<Record>, string>)
      requires Valid()
      ensures fault || taskId.NaN? || userId == Num(NaN) ==> r == Err(GetFailedMessage)
      ensures r.Ok? <==> !fault && taskId.Int? && userId != Num(NaN)
      ensures r.Ok? && r.value.Some? ==>
                && taskId.Int? && taskId.i >= 0 && taskId.i in tasks && r.value.value == tasks[taskId.i]
                && (userId != Undefined ==> tasks[taskId.i]["userId"] == userId)
      ensures r.Ok? && r.value.None? ==>
                forall id :: id in tasks && Num(taskId) == IntValue(id) ==>
                  userId != Undefined && tasks[id]["userId"] != userId
    {
      if fault {
        return Err(GetFailedMessage);
      }
      var where := map["id" := Num(taskId)];
      RejectedOne("id", Num(taskId));
      if userId != Undefined {
        where := where["userId" := userId];
        RejectedTwo("id", Num(taskId), "userId", userId);
      }
      var task := FindOne(where);
      if task.Err? {
        return Err(GetFailedMessage);
      }
      r := Ok(task.value);
    }

    /** `getAllTasksByUserId(userId, filters)`: a filter on any other column ends in an error. */
    method GetAllTasksByUserId(userId: Value, filters: Record, fault: bool) returns (r: Result<seq<Record>, string>)
      requires Valid()
      ensures !Truthy(userId) ==> r == Err(ListRequiredMessage)
      ensures Truthy(userId) && (fault || !(filters.Keys <= Columns) || Rejected(map["userId" := userId] + filters)) ==>
                r == Err(ListFailedMessage)
      ensures r.Ok? <==> Truthy(userId) && !fault && filters.Keys <= Columns && !Rejected(map["userId" := userId] + filters)
      ensures r.Ok? ==> r.value == FindAll(map["userId" := userId] + filters)
    {
      if !Truthy(userId) {
        return Err(ListRequiredMessage);
      }
      var where := map["userId" := userId] + filters;
      if fault || !(where.Keys <= Columns) || Rejected(where) {
        return Err(ListFailedMessage);
      }
      r := Ok(FindAll(where));
    }

    /** `updateTask(taskId, userId, updateData)`: only the owner's task changes. */
    method UpdateTask(taskId: Number, userId: Number, updateData: Value, now: Value, fault: bool)
      returns (r: Result<Option<Record>, string>)
      requires Valid()
      modifies this
      ensures Valid() && nextId == old(nextId)
      ensures fault || taskId.NaN? || userId.NaN? ==> r == Err(UpdateFailedMessage) && tasks == old(tasks)
      ensures r.Ok? <==> !fault && taskId.Int? && userId.Int?
      ensures r.Ok? ==> (r.value.Some? <==> Owns(old(tasks), taskId, userId))
      ensures r.Ok? && r.value.None? ==> tasks == old(tasks)
      ensures r.Ok? && r.value.Some? ==>
                && Owns(old(tasks), taskId, userId)
                && r.value.value == UpdatedTask(old(tasks)[taskId.i], updateData, now)
                && tasks == old(tasks)[taskId.i := r.value.value]
    {
      if fault {
        return Err(UpdateFailedMessage);
      }
      var where := map["id" := Num(taskId), "userId" := Num(userId)];
      RejectedTwo("id", Num(taskId), "userId", Num(userId));
      var taskToUpdate := FindOne(where);
      if taskToUpdate.Err? {
        return Err(UpdateFailedMessage);
      }
      if taskToUpdate.value.None? {
        assert !Owns(tasks, taskId, userId) by {
          if Owns(tasks, taskId, userId) {
            assert Matches(tasks[taskId.i], where);
          }
        }
        return Ok(None);
      }
      var id: nat := taskId.i;
      var updatedTask := ApplyUpdate(tasks[id], updateData, now);
      UpdatedRowKeepsShape(tasks[id], id, updateData, now);
      Save(id, updatedTask);
      r := Ok(Some(updatedTask));
    }

    /** `instance.save()`: the row under `id` is replaced by one of the same shape. */
    method Save(id: nat, row: Record)
      requires Valid() && id in tasks
      requires row.Keys == Columns && row["id"] == IntValue(id)
      modifies this
      ensures Valid() && nextId == old(nextId)
      ensures tasks == old(tasks)[id := row]
    {
      tasks := tasks[id := row];
    }

    /** `deleteTask(taskId, userId)`: removes the owner's task and reports whether it did. */
    method DeleteTask(taskId: Number, userId: Number, fault: bool) returns (r: Result<bool, string>)
      requires Valid()
      modifies this
      ensures Valid() && nextId == old(nextId)
      ensures fault || taskId.NaN? || userId.NaN? ==> r == Err(DeleteFailedMessage) && tasks == old(tasks)
      ensures r.Ok? <==> !fault && taskId.Int? && userId.Int?
      ensures r == Ok(false) ==> tasks == old(tasks)
      ensures r == Ok(true) <==> !fault && userId.Int? && Owns(old(tasks), taskId, userId)
      ensures r == Ok(true) ==> tasks == old(tasks) - {taskId.i as nat}
    {
      if fault {
        return Err(DeleteFailedMessage);
      }
      var where := map["id" := Num(taskId), "userId" := Num(userId)];
      RejectedTwo("id", Num(taskId), "userId", Num(userId));
      var task := FindOne(where);
      if task.Err? {
        return Err(DeleteFailedMessage);
      }
      if task.value.None? {
        assert !Owns(tasks, taskId, userId) by {
          if Owns(tasks, taskId, userId) {
            assert Matches(tasks[taskId.i], where);
          }
        }
        return Ok(false);
      }
      var id: nat := taskId.i;
      var before := |tasks.Keys|;
      RemovedCount(tasks, id);
      tasks := tasks - {id};
      var deletedRowsCount := before - |tasks.Keys|;
      r := Ok(deletedRowsCount > 0);
    }
  }

  /** `{ ...updateData }` with the protected fields deleted one by one. */
  method StripProtected(updateData: Value) returns (cleanUpdateData: Record)
    ensures cleanUpdateData == Strip(updateData, ProtectedFields)
  {
    cleanUpdateData := Spread(updateData);
    cleanUpdateData := cleanUpdateData - {"userId_for_update_permission"};
    cleanUpdateData := cleanUpdateData - {"id"};
    cleanUpdateData := cleanUpdateData - {"userId"};
    cleanUpdateData := cleanUpdateData - {"createdAt"};
  }

  /** `task.update(cleanUpdateData)` on the row, after the protected fields are deleted. */
  method ApplyUpdate(row: Record, updateData: Value, now: Value) returns (updated: Record)
    ensures updated == UpdatedTask(row, updateData, now)
  {
    var cleanUpdateData := StripProtected(updateData);
    updated := Updated(row, cleanUpdateData, DataColumns, now);
  }

  /** An updated task row still has all the columns and its own id. */
  lemma UpdatedRowKeepsShape(row: Record, id: nat, updateData: Value, now: Value)
    requires row.Keys == Columns && row["id"] == IntValue(id)
    ensures UpdatedTask(row, updateData, now).Keys == Columns
    ensures UpdatedTask(row, updateData, now)["id"] == IntValue(id)
  {
  }

  /** The filters are spread after `userId`, so a `userId` filter replaces the caller's. */
  lemma FilterOverridesUserId(userId: Value, filters: Record)
    requires "userId" in filters
    ensures map["userId" := userId] + filters == filters
  {
  }

  /** An update never changes a task's id, owner or creation time. */
  lemma UpdateKeepsIdentity(row: Record, updateData: Value, now: Value)
    requires row.Keys == Columns
    ensures var r := UpdatedTask(row, updateData, now);
      r.Keys == Columns && r["id"] == row["id"] && r["userId"] == row["userId"] && r["createdAt"] == row["createdAt"]
  {
    var clean := Strip(updateData, ProtectedFields);
    assert "userId" !in clean;
  }
}
