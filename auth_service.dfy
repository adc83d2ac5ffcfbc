/**
 * The auth service's user table and its two operations: registration (an
 * email and a password hashed on insert; the stored hash is never returned)
 * and login (the error taxonomy, and the signed token with the user's id as
 * its subject). The password hash, its comparison and token signing are
 * oracles; the database's own failures are a `fault` parameter.
 */
module AuthService {
  import opened Js
  import opened Wrappers

  const RequiredMessage := "Email e password são obrigatórios."
  const EmailTakenMessage := "Email já registado."
  const RegisterFailedMessage := "Não foi possível registar o utilizador."
  const UserNotFoundMessage := "Credenciais inválidas. Utilizador não encontrado."
  const WrongPasswordMessage := "Credenciais inválidas. Password incorreta."
  const LoginFailedMessage := "Erro no processo de login."
  /** Login errors that start with this are passed on unchanged. */
  const InvalidCredentialsPrefix := "Credenciais inválidas"
  /** The `name` of the error the database raises for a duplicate unique column. */
  const UniqueConstraintError := "SequelizeUniqueConstraintError"

  /** A row of the Users table; `password` holds the bcrypt hash. */
  datatype User = User(id: nat, email: Value, password: Value, createdAt: Value, updatedAt: Value)

  /** `newUser.toJSON()` with `password` deleted. */
  function PublicView(u: User): (v: Value)
    ensures v.Obj? && "password" !in v.fields
    ensures Prop(v, "id") == IntValue(u.id) && Prop(v, "email") == u.email
  {
    Obj(map["id" := IntValue(u.id), "email" := u.email, "createdAt" := u.createdAt, "updatedAt" := u.updatedAt])
  }

  /** `User.findOne({ where: { email } })`: the index of the row with that email, if any. */
  function FindByEmail(users: seq<User>, email: Value): (i: Option<nat>)
    ensures i.Some? ==> i.value < |users| && users[i.value].email == email
    ensures i.Some? ==> forall k :: 0 <= k < i.value ==> users[k].email != email
    ensures i.None? ==> forall k :: 0 <= k < |users| ==> users[k].email != email
  {
    if users == [] then None
    else if users[0].email == email then Some(0)
    else match FindByEmail(users[1..], email)
      case None => None
      case Some(k) => Some(k + 1)
  }

  /** The error that login reports for a thrown error with message m (lines 95-98). */
  function LoginError(m: string): (e: string)
    ensures StartsWith(m, InvalidCredentialsPrefix) ==> e == m
    ensures !StartsWith(m, InvalidCredentialsPrefix) ==> e == LoginFailedMessage
  {
    if StartsWith(m, InvalidCredentialsPrefix) then m else LoginFailedMessage
  }

  /** The claims put in a login token: the user's id as subject, and the email. */
  function TokenPayload(u: User): (p: Value)
    ensures Prop(p, "sub") == IntValue(u.id) && Prop(p, "email") == u.email
  {
    Obj(map["sub" := IntValue(u.id), "email" := u.email])
  }

  /** The Users table: rows in insertion order and the next auto-increment id. */
  class UserStore {
    var users: seq<User>
    var nextId: nat

    /** Ids start at 1 and increase; no two users share an email. */
    predicate Valid()
      reads this
    {
      && nextId >= 1
      && (forall i :: 0 <= i < |users| ==> 1 <= users[i].id < nextId)
      && (forall i, j :: 0 <= i < j < |users| ==> users[i].id < users[j].id && users[i].email != users[j].email)
    }

    constructor ()
      ensures Valid() && users == [] && nextId == 1
    {
      users := [];
      nextId := 1;
    }

    /**
     * `registerUser(userData)`. `hash(password, salt)` is what bcrypt stores,
     * `now` the timestamps of the new row, and `fault` the name of an error
     * the insert raises, if it raises one.
     */
    method RegisterUser(userData: Value, now: Value, salt: Value, hash: (Value, Value) -> Value, fault: Option<string>)
      returns (r: Result<Value, string>)
      requires Valid()
      modifies this
      ensures Valid()
      ensures var email, password := Prop(userData, "email"), Prop(userData, "password");
        && (!Truthy(email) || !Truthy(password) ==> r == Err(RequiredMessage))
        && (Truthy(email) && Truthy(password) && FindByEmail(old(users), email).Some? ==> r == Err(RegisterFailedMessage))
        && (Truthy(email) && Truthy(password) && FindByEmail(old(users), email).None? && fault.Some? ==>
              r == Err(if fault.value == UniqueConstraintError then EmailTakenMessage else RegisterFailedMessage))
        && (r.Ok? <==> Truthy(email) && Truthy(password) && FindByEmail(old(users), email).None? && fault.None?)
        && (r.Ok? ==>
              var u := User(old(nextId), email, hash(password, salt), now, now);
              users == old(users) + [u] && nextId == old(nextId) + 1 && r.value == PublicView(u))
        && (r.Err? ==> users == old(users) && nextId == old(nextId))
    {
      var email := Prop(userData, "email");
      var password := Prop(userData, "password");
      if !Truthy(email) || !Truthy(password) {
        return Err(RequiredMessage);
      }
      var existingUser := FindByEmail(users, email);
      if existingUser.Some? {
        // 'Email já registado.' is thrown inside the try block and replaced there.
        return Err(RegisterFailedMessage);
      }
      if fault.Some? {
        if fault.value == UniqueConstraintError {
          return Err(EmailTakenMessage);
        }
        return Err(RegisterFailedMessage);
      }
      var newUser := User(nextId, email, hash(password, salt), now, now);
      users := users + [newUser];
      nextId := nextId + 1;
      var userResponse := map["id" := IntValue(newUser.id), "email" := newUser.email, "password" := newUser.password,
                              "createdAt" := newUser.createdAt, "updatedAt" := newUser.updatedAt];
      userResponse := userResponse - {"password"};
      assert userResponse == PublicView(newUser).fields;
      r := Ok(Obj(userResponse));
    }

    /**
     * `loginUser(email, password)`. `compare(password, hash)` is bcrypt's
     * check, `sign(payload)` the token jsonwebtoken issues, `expiresIn` the
     * configured lifetime, and `fault` the message of an error the lookup
     * raises, if it raises one.
     */
    function LoginUser(email: Value, password: Value, compare: (Value, Value) -> bool, sign: Value -> Value,
                       expiresIn: Value, fault: Option<string>): (r: Result<Value, string>)
      reads this
      ensures !Truthy(email) || !Truthy(password) ==> r == Err(RequiredMessage)
      ensures Truthy(email) && Truthy(password) && fault.Some? ==> r == Err(LoginError(fault.value))
      ensures Truthy(email) && Truthy(password) && fault.None? && FindByEmail(users, email).None? ==>
                r == Err(UserNotFoundMessage)
      ensures Truthy(email) && Truthy(password) && fault.None? && FindByEmail(users, email).Some? &&
              !compare(password, users[FindByEmail(users, email).value].password) ==>
                r == Err(WrongPasswordMessage)
      ensures r.Ok? <==>
                && Truthy(email) && Truthy(password) && fault.None? && FindByEmail(users, email).Some?
                && compare(password, users[FindByEmail(users, email).value].password)
      ensures r.Ok? ==>
                var u := users[FindByEmail(users, email).value];
                r.value == Obj(map["token" := sign(TokenPayload(u)), "userId" := IntValue(u.id),
                                   "email" := u.email, "expiresIn" := expiresIn])
    {
      if !Truthy(email) || !Truthy(password) then Err(RequiredMessage)
      else if fault.Some? then Err(LoginError(fault.value))
      else match FindByEmail(users, email)
        case None => Err(LoginError(UserNotFoundMessage))
        case Some(i) =>
          var user := users[i];
          if !compare(password, user.password) then Err(LoginError(WrongPasswordMessage))
          else
            Ok(Obj(map["token" := sign(TokenPayload(user)), "userId" := IntValue(user.id),
                       "email" := user.email, "expiresIn" := expiresIn]))
    }
  }

  /** The two credential errors are passed on by the catch block unchanged. */
  lemma CredentialErrorsPassThrough()
    ensures LoginError(UserNotFoundMessage) == UserNotFoundMessage
    ensures LoginError(WrongPasswordMessage) == WrongPasswordMessage
    ensures LoginError(LoginFailedMessage) == LoginFailedMessage
  {
    assert UserNotFoundMessage[..|InvalidCredentialsPrefix|] == InvalidCredentialsPrefix;
    assert WrongPasswordMessage[..|InvalidCredentialsPrefix|] == InvalidCredentialsPrefix;
    assert LoginFailedMessage[0] != InvalidCredentialsPrefix[0];
  }

  /** Users are looked up by email: in a valid table the row found is the only one with that email. */
  lemma FindByEmailUnique(users: seq<User>, email: Value, k: nat)
    requires forall i, j :: 0 <= i < j < |users| ==> users[i].email != users[j].email
    requires k < |users| && users[k].email == email
    ensures FindByEmail(users, email) == Some(k)
  {
  }
}
