/**
 * The user service's profile table and its four operations. Each user has at
 * most one profile, so the table maps a user id to that user's row; the ids
 * of the Users table owned by the authentication service are a fixed set the
 * foreign key refers to. The database's own failures are parameters.
 */
module ProfileService {
  import opened Js
  import opened Wrappers
  import opened Rows

  const CreateRequiredMessage := "userId é obrigatório" + " para criar um perfil."
  const GetRequiredMessage := "userId é obrigatório para obter um perfil."
  const UpdateRequiredMessage := "userId é obrigatório para atualizar um perfil."
  const DeleteRequiredMessage := "userId é obrigatório para eliminar um perfil."
  const CreateFailedMessage := "Não foi possível criar" + " o perfil do utilizador."
  const GetFailedMessage := "Não foi possível obter o perfil do utilizador."
  const UpdateFailedMessage := "Não foi possível atualizar o perfil do utilizador."
  const DeleteFailedMessage := "Não foi possível eliminar o perfil do utilizador."

  /** What the create handler's catch block looks for in a message. */
  const ExistsMarker := "Perfil já existe"

  const UniqueErrorName := "SequelizeUniqueConstraintError"
  const ForeignKeyErrorName := "SequelizeForeignKeyConstraintError"

  /** The text MariaDB gives a foreign-key violation (error 1452). */
  const ForeignKeyDetail := "Cannot add or update a child row: " + "a foreign key constraint fails"

  /** The message for a user that already has a profile. */
  function ExistsMessage(userId: int): string {
    "Perfil já existe" + " para o utilizador com ID " + IntToString(userId) + "."
  }

  /** The message for a user id the Users table does not hold. */
  function UnknownUserMessage(userId: int): string {
    "Utilizador com ID" + " " + IntToString(userId) + " não encontrado na tabela Users."
  }

  /** The columns of the UserProfiles table. */
  const Columns: set<string> := {"id", "userId", "name", "bio", "avatarUrl", "createdAt", "updatedAt"}

  /** The columns a profile's owner writes. */
  const DataColumns: set<string> := {"name", "bio", "avatarUrl"}

  /** The fields `updateUserProfile` deletes from the update before applying it. */
  const ProtectedFields: set<string> := {"id", "userId", "createdAt"}

  /** An Error thrown inside a service's try block: its `name` and `message`. */
  datatype Thrown = Thrown(name: string, message: string)

  /**
   * The catch block of `createUserProfile`: a duplicate becomes the "exists"
   * error, a foreign-key failure the "unknown user" error, anything else the
   * generic one.
   */
  function Caught(userId: int, e: Thrown): (m: string)
    ensures m == ExistsMessage(userId) || m == UnknownUserMessage(userId) || m == CreateFailedMessage
  {
    if e.name == UniqueErrorName || Contains(e.message, ExistsMarker) then ExistsMessage(userId)
    else if e.name == ForeignKeyErrorName then UnknownUserMessage(userId)
    else CreateFailedMessage
  }

  /** The value `UserProfile.create` stores in a data column; a missing field is stored as NULL. */
  function ColumnValue(data: Value, k: string): Value {
    if Prop(data, k) == Undefined then Null else Prop(data, k)
  }

  /** The row `UserProfile.create({ userId, name, bio, avatarUrl })` inserts with the given id and timestamp. */
  function NewProfile(userId: int, data: Value, id: nat, now: Value): (row: Record)
    ensures row.Keys == Columns
    ensures row["id"] == IntValue(id) && row["userId"] == IntValue(userId)
    ensures row["createdAt"] == now && row["updatedAt"] == now
    ensures forall k :: k in DataColumns ==> row[k] == ColumnValue(data, k)
  {
    map k | k in Columns ::
      if k == "id" then IntValue(id)
      else if k == "userId" then IntValue(userId)
      else if k == "createdAt" || k == "updatedAt" then now
      else ColumnValue(data, k)
  }

  /** The row `userProfile.update(cleanUpdateData)` leaves: the update with the protected fields deleted. */
  function UpdatedProfile(row: Record, updateData: Value, now: Value): Record {
    Updated(row, Strip(updateData, ProtectedFields), DataColumns, now)
  }

  /** The row's primary key is a positive integer below the next auto-increment value. */
  predicate IdBelow(row: Record, nextId: nat) {
    "id" in row && row["id"].Num? && row["id"].n.Int? && 0 < row["id"].n.i < nextId
  }

  /** The UserProfiles table: rows by user id, the existing user ids, and the next profile id. */
  class ProfileStore {
    var profiles: map<int, Record>
    var nextId: nat
    /** The ids of the Users table the `userId` foreign key references. */
    const users: set<int>

    /**
     * Every row has all the columns, sits under its own user id, which the
     * Users table holds, and has an id of its own.
     */
    predicate Valid()
      reads this
    {
      && nextId >= 1
      && profiles.Keys <= users
      && (forall u :: u in profiles ==>
            profiles[u].Keys == Columns && profiles[u]["userId"] == IntValue(u) && IdBelow(profiles[u], nextId))
      && (forall u, v :: u in profiles && v in profiles && u != v ==> profiles[u]["id"] != profiles[v]["id"])
    }

    constructor (users: set<int>)
      ensures Valid() && profiles == map[] && nextId == 1 && this.users == users
    {
      profiles := map[];
      nextId := 1;
      this.users := users;
    }

    /** `UserProfile.findOne({ where: { userId } })` */
    function FindByUserId(userId: int): (r: Option<Record>)
      reads this
      ensures r.Some? ==> r.value in profiles.Values && Matches(r.value, map["userId" := IntValue(userId)])
      ensures Valid() && r.None? ==> forall u :: u in profiles ==> !Matches(profiles[u], map["userId" := IntValue(userId)])
    {
      if userId in profiles && Matches(profiles[userId], map["userId" := IntValue(userId)]) then Some(profiles[userId]) else None
    }

    /** With the table valid, the row that matches a user id is the one stored under it. */
    lemma FindByUserIdStored(userId: int)
      requires Valid()
      ensures FindByUserId(userId).Some? <==> userId in profiles
      ensures userId in profiles ==> FindByUserId(userId) == Some(profiles[userId])
    {
    }

    /**
     * `createUserProfile(userId, profileData)`. The lookup fails with
     * `lookupFault` and the insert with `fault` when the database raises an
     * error of its own; otherwise the insert fails only on the foreign key.
     */
    method CreateUserProfile(userId: int, profileData: Value, now: Value, lookupFault: Option<Thrown>, fault: Option<Thrown>)
      returns (r: Result<Record, string>)
      requires Valid()
      modifies this
      ensures Valid()
      ensures userId == 0 ==> r == Err(CreateRequiredMessage)
      ensures userId != 0 && lookupFault.Some? ==> r == Err(Caught(userId, lookupFault.value))
      ensures userId != 0 && lookupFault.None? && userId in old(profiles) ==> r == Err(ExistsMessage(userId))
      ensures userId != 0 && lookupFault.None? && userId !in old(profiles) && (profileData.Null? || profileData.Undefined?) ==>
                r == Err(CreateFailedMessage)
      ensures userId != 0 && lookupFault.None? && userId !in old(profiles) && !(profileData.Null? || profileData.Undefined?)
                && fault.Some? ==>
                r == Err(Caught(userId, fault.value))
      ensures userId != 0 && lookupFault.None? && userId !in old(profiles) && !(profileData.Null? || profileData.Undefined?)
                && fault.None? && userId !in users ==>
                r == Err(UnknownUserMessage(userId))
      ensures r.Ok? <==>
                && userId != 0 && lookupFault.None? && userId !in old(profiles)
                && !(profileData.Null? || profileData.Undefined?) && fault.None? && userId in users
      ensures r.Err? ==> profiles == old(profiles) && nextId == old(nextId)
      ensures r.Ok? ==>
                && r.value == NewProfile(userId, profileData, old(nextId), now)
                && profiles == old(profiles)[userId := r.value] && nextId == old(nextId) + 1
    {
      if !Truthy(IntValue(userId)) {
        return Err(CreateRequiredMessage);
      }
      var failure := Insert(userId, profileData, now, lookupFault, fault);
      match failure
      case Some(e) =>
        r := Err(Caught(userId, e));
        CaughtExisting(userId);
        if profileData.Null? || profileData.Undefined? {
          CaughtTypeError(userId, profileData);
        }
        CaughtForeignKey(userId);
      case None =>
        r := Ok(profiles[userId]);
    }

    /**
     * The try block of `createUserProfile`: the lookup, the read of the
     * profile fields and the insert, or the Error that stops them.
     */
    method Insert(userId: int, profileData: Value, now: Value, lookupFault: Option<Thrown>, fault: Option<Thrown>)
      returns (failure: Option<Thrown>)
      requires Valid()
      modifies this
      ensures Valid()
      ensures lookupFault.Some? ==> failure == lookupFault
      ensures lookupFault.None? && userId in old(profiles) ==> failure == Some(Thrown("Error", ExistsMessage(userId)))
      ensures lookupFault.None? && userId !in old(profiles) && (profileData.Null? || profileData.Undefined?) ==>
                failure == Some(Thrown("TypeError", "Cannot read properties of " + ToString(profileData) + " (reading 'name')"))
      ensures lookupFault.None? && userId !in old(profiles) && !(profileData.Null? || profileData.Undefined?) && fault.Some? ==>
                failure == fault
      ensures lookupFault.None? && userId !in old(profiles) && !(profileData.Null? || profileData.Undefined?) && fault.None?
                && userId !in users ==>
                failure == Some(Thrown(ForeignKeyErrorName, ForeignKeyDetail))
      ensures failure.None? <==>
                && lookupFault.None? && userId !in old(profiles)
                && !(profileData.Null? || profileData.Undefined?) && fault.None? && userId in users
      ensures failure.Some? ==> profiles == old(profiles) && nextId == old(nextId)
      ensures failure.None? ==>
                profiles == old(profiles)[userId := NewProfile(userId, profileData, old(nextId), now)] && nextId == old(nextId) + 1
    {
      if lookupFault.Some? {
        return lookupFault;
      }
      var existingProfile := FindByUserId(userId);
      FindByUserIdStored(userId);
      if existingProfile.Some? {
        return Some(Thrown("Error", ExistsMessage(userId)));
      }
      if profileData.Null? || profileData.Undefined? {
        return Some(Thrown("TypeError", "Cannot read properties of " + ToString(profileData) + " (reading 'name')"));
      }
      if fault.Some? {
        return fault;
      }
      if userId !in users {
        return Some(Thrown(ForeignKeyErrorName, ForeignKeyDetail));
      }
      var newProfile := NewProfile(userId, profileData, nextId, now);
      profiles := profiles[userId := newProfile];
      nextId := nextId + 1;
      failure := None;
    }

    /** `getUserProfileByUserId(userId)`; `fault` says the lookup failed. */
    method GetUserProfileByUserId(userId: int, fault: bool) returns (r: Result<Option<Record>, string>)
      requires Valid()
      ensures userId == 0 ==> r == Err(GetRequiredMessage)
      ensures userId != 0 && fault ==> r == Err(GetFailedMessage)
      ensures r.Ok? <==> userId != 0 && !fault
      ensures r.Ok? ==> r.value == FindByUserId(userId)
      ensures r.Ok? ==> (r.value.Some? <==> userId in profiles)
    {
      if !Truthy(IntValue(userId)) {
        return Err(GetRequiredMessage);
      }
      if fault {
        return Err(GetFailedMessage);
      }
      FindByUserIdStored(userId);
      r := Ok(FindByUserId(userId));
    }

    /** `updateUserProfile(userId, updateData)`: the user's profile takes the update, if there is one. */
    method UpdateUserProfile(userId: int, updateData: Value, now: Value, fault: bool)
      returns (r: Result<Option<Record>, string>)
      requires Valid()
      modifies this
      ensures Valid() && nextId == old(nextId)
      ensures userId == 0 ==> r == Err(UpdateRequiredMessage)
      ensures userId != 0 && fault ==> r == Err(UpdateFailedMessage)
      ensures r.Ok? <==> userId != 0 && !fault
      ensures r.Err? ==> profiles == old(profiles)
      ensures r.Ok? ==> (r.value.Some? <==> userId in old(profiles))
      ensures r.Ok? && r.value.None? ==> profiles == old(profiles)
      ensures r.Ok? && r.value.Some? ==>
                && r.value.value == UpdatedProfile(old(profiles)[userId], updateData, now)
                && profiles == old(profiles)[userId := r.value.value]
    {
      if !Truthy(IntValue(userId)) {
        return Err(UpdateRequiredMessage);
      }
      if fault {
        return Err(UpdateFailedMessage);
      }
      var userProfile := FindByUserId(userId);
      FindByUserIdStored(userId);
      if userProfile.None? {
        return Ok(None);
      }
      var updatedProfile := ApplyUpdate(userProfile.value, updateData, now);
      UpdatedProfileKeepsShape(userProfile.value, updateData, now);
      Save(userId, updatedProfile);
      r := Ok(Some(updatedProfile));
    }

    /** `instance.save()`: the user's row is replaced by one with the same columns, id and owner. */
    method Save(userId: int, row: Record)
      requires Valid() && userId in profiles
      requires row.Keys == Columns && row["id"] == profiles[userId]["id"] && row["userId"] == profiles[userId]["userId"]
      modifies this
      ensures Valid() && nextId == old(nextId)
      ensures profiles == old(profiles)[userId := row]
    {
      profiles := profiles[userId := row];
    }

    /** `deleteUserProfile(userId)`: removes the user's profile and reports whether a row went. */
    method DeleteUserProfile(userId: int, fault: bool) returns (r: Result<bool, string>)
      requires Valid()
      modifies this
      ensures Valid() && nextId == old(nextId)
      ensures userId == 0 ==> r == Err(DeleteRequiredMessage)
      ensures userId != 0 && fault ==> r == Err(DeleteFailedMessage)
      ensures !(userId != 0 && !fault) ==> profiles == old(profiles)
      ensures userId != 0 && !fault ==> r == Ok(userId in old(profiles)) && profiles == old(profiles) - {userId}
    {
      if !Truthy(IntValue(userId)) {
        return Err(DeleteRequiredMessage);
      }
      if fault {
        return Err(DeleteFailedMessage);
      }
      var before := |profiles.Keys|;
      RemovedCount(profiles, userId);
      profiles := profiles - {userId};
      var deletedRowsCount := before - |profiles.Keys|;
      r := Ok(deletedRowsCount > 0);
    }
  }

  /** A user that already has a profile gets the "exists" error back from the catch block. */
  lemma CaughtExisting(userId: int)
    ensures Caught(userId, Thrown("Error", ExistsMessage(userId))) == ExistsMessage(userId)
  {
    ExistsMessageMarked(userId);
  }

  lemma ExistsMessageMarked(userId: int)
    ensures Contains(ExistsMessage(userId), ExistsMarker)
  {
    var tail := " para o utilizador com ID " + IntToString(userId) + ".";
    assert ExistsMessage(userId) == ExistsMarker + tail;
    ConcatContainsHead(ExistsMarker, tail);
  }

  /** Reading a field of null or undefined throws a TypeError, which ends in the generic error. */
  lemma CaughtTypeError(userId: int, profileData: Value)
    requires profileData.Null? || profileData.Undefined?
    ensures Caught(userId, Thrown("TypeError", "Cannot read properties of " + ToString(profileData) + " (reading 'name')"))
         == CreateFailedMessage
  {
    var m := "Cannot read properties of " + ToString(profileData) + " (reading 'name')";
    assert "TypeError"[0] != UniqueErrorName[0];
    assert "TypeError"[0] != ForeignKeyErrorName[0];
    assert 'P' !in m by {
      assert 'P' !in "Cannot read properties of ";
      assert 'P' !in ToString(profileData);
      assert 'P' !in " (reading 'name')";
    }
    MissingCharNotContained(m, ExistsMarker, 0);
  }

  /** A foreign-key failure ends in the "unknown user" error. */
  lemma CaughtForeignKey(userId: int)
    ensures Caught(userId, Thrown(ForeignKeyErrorName, ForeignKeyDetail)) == UnknownUserMessage(userId)
  {
    ErrorNamesDiffer();
    DetailLacksCapitalP();
    MissingCharNotContained(ForeignKeyDetail, ExistsMarker, 0);
  }

  lemma ErrorNamesDiffer()
    ensures ForeignKeyErrorName != UniqueErrorName
  {
    assert ForeignKeyErrorName[9] != UniqueErrorName[9];
  }

  lemma DetailLacksCapitalP()
    ensures 'P' !in ForeignKeyDetail
  {
    assert 'P' !in "Cannot add or update a child row: ";
    assert 'P' !in "a foreign key constraint fails";
  }

  /** `{ ...updateData }` with the protected fields deleted one by one. */
  method StripProtected(updateData: Value) returns (cleanUpdateData: Record)
    ensures cleanUpdateData == Strip(updateData, ProtectedFields)
  {
    cleanUpdateData := Spread(updateData);
    cleanUpdateData := cleanUpdateData - {"id"};
    cleanUpdateData := cleanUpdateData - {"userId"};
    cleanUpdateData := cleanUpdateData - {"createdAt"};
  }

  /** `userProfile.update(cleanUpdateData)` on the row, after the protected fields are deleted. */
  method ApplyUpdate(row: Record, updateData: Value, now: Value) returns (updated: Record)
    ensures updated == UpdatedProfile(row, updateData, now)
  {
    var cleanUpdateData := StripProtected(updateData);
    updated := Updated(row, cleanUpdateData, DataColumns, now);
  }

  /** An updated profile keeps all the columns, its id and its user. */
  lemma UpdatedProfileKeepsShape(row: Record, updateData: Value, now: Value)
    requires row.Keys == Columns
    ensures var r := UpdatedProfile(row, updateData, now);
      r.Keys == Columns && r["id"] == row["id"] && r["userId"] == row["userId"] && r["createdAt"] == row["createdAt"]
  {
  }

  /** Only `name`, `bio` and `avatarUrl` are taken from the profile data; other keys make no difference. */
  lemma CreateIgnoresOtherKeys(userId: int, fields: Record, id: nat, now: Value)
    ensures NewProfile(userId, Obj(fields), id, now)
         == NewProfile(userId, Obj(map k | k in fields && k in DataColumns :: fields[k]), id, now)
  {
    var narrowed := Obj(map k | k in fields && k in DataColumns :: fields[k]);
    forall k | k in DataColumns
      ensures ColumnValue(Obj(fields), k) == ColumnValue(narrowed, k)
    {
    }
  }
}
