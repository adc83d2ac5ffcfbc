# Task-management microservices: a Dafny model

The system is a small task manager split into four Node.js services.

- **API gateway.** It forwards `/api/auth/*` to the authentication service. On a successful registration it also runs a saga: it asks the user service to create the new user's profile. It puts `/api/users/*` and `/api/tasks/*` behind a JWT bearer-token gate and proxies them by hand to the user and task services.
- **Authentication service.** It registers users (email and a bcrypt-hashed password) and logs them in with a signed token.
- **Task service.** It offers create, read, list, update and delete on tasks. Every update and delete is checked against the task's owner.
- **User service.** It keeps one profile per user. The profile's `userId` is a foreign key into the authentication service's Users table.

The model covers:

- the gateway's HTTP helper, its generic proxy, the `/api/auth` handler with its saga, and the token gate;
- the controller and the service layer of each backend.

JavaScript values are a datatype: undefined, null, booleans, integers or NaN, strings, arrays and objects. Truthiness, property reads, `||`, `String(v)` and `parseInt(s, 10)` are written out on that datatype.

A database table is a class whose field maps a key to a row, held as a map from column names to values. A service operation is a method on that class. Its contract gives:

- every error message the operation can raise;
- the exact new table.

A controller maps the service's result, or the message of the error it threw, to one status and body. The gateway's network goes through a `Network` object:

- an oracle numbers the requests and gives each one its exchange (an answer made of chunks, a timeout, or a request error);
- a log records every request sent.

The handlers' contracts state which requests were sent, in order, and what the client response holds (up to the JSON gaps listed under "## Left out").

Modules, one file each:

- `Js`: JavaScript values and conversions;
- `Wrappers`: `Option` and `Result`;
- `Http`: replies and the Express request and response objects;
- `Transport`: `makeHttpRequest`;
- `AuthMiddleware`: `verifyToken`;
- `Gateway`: the proxies and the registration saga;
- `AuthService` and `AuthController`;
- `Rows`: the ORM's `where`, `update` and `destroy`;
- `TaskService` and `TaskController`;
- `ProfileService` and `ProfileController`.

One behaviour may surprise. Registering an email that is already taken gets 500 with the generic message, not 409. The service's own lookup finds the email and throws, but its own catch block replaces that error. Only a unique-constraint error from the insert gives 409. The model follows the code here (`AuthController.DuplicateEmailIsServerError`).

## Model

| member | source | states |
|---|---|---|
| Js.Prop | task-service/src/controllers/task.controller.js:41 | A property read gives the object's field when it has one, and `undefined` in every other case |
| Js.Or | api-gateway/server.js:173 | `a \|\| b` is `a` when `a` is truthy and `b` otherwise |
| Js.IntToString | api-gateway/server.js:163 | A template literal writes an integer as a non-empty run of decimal digits, with a leading minus for a negative one |
| Js.TrimStart | task-service/src/controllers/task.controller.js:48 | `parseInt` first drops leading white space: the result is a suffix of the input and does not start with white space |
| Js.DigitPrefix | task-service/src/controllers/task.controller.js:48 | `parseInt` reads the longest run of decimal digits at the start; the character after it, if any, is not a digit |
| Js.ParseIntOfDigits | task-service/src/controllers/task.controller.js:48 | `parseInt` of a non-empty digit string is that string's decimal value |
| Js.ParseIntOfNegativeDigits | user-service/src/controllers/userProfile.controller.js:6 | `parseInt` of `-` followed by digits is the negated value |
| Js.ParseIntToString | user-service/src/controllers/userProfile.controller.js:6 | `parseInt` reads back every integer that `String` wrote, negative ones included |
| Js.ParseIntValueOfInt | task-service/src/controllers/task.controller.js:86 | `parseInt` of a number value gives that number back |
| Http.MessageReplyInjective | task-service/src/controllers/task.controller.js:65 | Two `{ message }` replies are equal exactly when their statuses and messages are |
| Http.FoundReply | task-service/src/controllers/task.controller.js:62-69 | A found row gives 200 with the row and nothing else does; nothing found gives 404 with the not-found message; a thrown error gives 500 with its message, or the fallback when the message is empty |
| Http.RemovedReply | task-service/src/controllers/task.controller.js:111-119 | 204 with no body exactly when the service reports a deletion; `false` gives 404 with the not-found message; a thrown error gives 500 with its message or the fallback |
| Http.ClientResponse.Status | api-gateway/server.js:101 | `res.status(code)` sets the status and nothing else |
| Http.ClientResponse.Set | api-gateway/server.js:101 | `res.set(h)` adds the headers over the ones already set |
| Http.ClientResponse.Write | api-gateway/server.js:103-107 | `res.json` and `res.send` record the one payload sent |
| Transport.ConcatAppend | api-gateway/server.js:24-26 | Appending chunk lists appends their concatenations |
| Transport.ReadBody | api-gateway/server.js:24-26 | The loop that appends each `data` chunk ends with exactly the concatenation of all chunks |
| Transport.ClassifyBody | api-gateway/server.js:28-35 | An empty body becomes `{}`; a body that parses becomes the parsed value; the raw text is kept exactly when it is non-empty and does not parse |
| Transport.Settle | api-gateway/server.js:21-54 | The promise resolves exactly when the backend answered, with its status, headers and classified body; a timeout rejects with `Request Timeout`; a request error rejects with its own message |
| Transport.MakeHttpRequest | api-gateway/server.js:21-54 | Exactly one request is appended to the log; the result is the settled exchange the network gives that request; the socket is destroyed exactly on a timeout |
| AuthMiddleware.Split | api-gateway/src/middleware/auth.middleware.js:7 | `split(' ')` gives at least one field, and no field contains a space |
| AuthMiddleware.JoinSplit | api-gateway/src/middleware/auth.middleware.js:7 | Joining the fields with single spaces gives back the header value |
| AuthMiddleware.ExtractToken | api-gateway/src/middleware/auth.middleware.js:6-7 | There is a second field exactly when the header has a space; it is the text between the first space and the next one (or the end) |
| AuthMiddleware.Gate | api-gateway/src/middleware/auth.middleware.js:5-31 | No token gives exactly 403 with the "no token" message; a verified token gives exactly admission with its claims; `TokenExpiredError` gives exactly 401 "expired"; any other error gives exactly 401 "invalid" |
| AuthMiddleware.GateOutcomesExclusive | api-gateway/src/middleware/auth.middleware.js:9-31 | Every request is admitted or refused with 401 or 403 and a JSON body |
| AuthMiddleware.VerifyToken | api-gateway/src/middleware/auth.middleware.js:5-31 | `next()` is called exactly on admission. Then only `req.user` changes, and it becomes the decoded claims. Otherwise `req.user` is unchanged and the response holds exactly the refusal |
| Gateway.OutboundBody | api-gateway/server.js:87 | A body is forwarded exactly when it has at least one key, and then unchanged |
| Gateway.ProxyHeaders | api-gateway/server.js:70-91 | The outbound headers carry the target's host and no `content-length` or `transfer-encoding`. They carry `X-User-ID` equal to `user.sub` when the gate left one, and a JSON content type when there is a body. Every other client header is copied unchanged |
| Gateway.ResponseHeaders | api-gateway/server.js:97-99 | The backend's headers pass unchanged except `transfer-encoding` and `content-length`, which are removed |
| Gateway.RelayReply | api-gateway/server.js:101-107 | The client gets the backend's status, its filtered headers and its body: as JSON exactly when the body is an object (or null), and the raw text through `send` otherwise |
| Gateway.FailureReply | api-gateway/server.js:111-117 | A rejection gives 504 exactly when it is the timeout and 502 otherwise, with the matching text and no headers |
| Gateway.ProxyReply | api-gateway/server.js:93-117 | An answer is relayed; a rejection gives the service's 504 or 502 text |
| Gateway.WriteTransportFailure | api-gateway/server.js:109-117 | Once headers are sent nothing changes; otherwise the response holds exactly the failure reply |
| Gateway.WriteRelay | api-gateway/server.js:97-107 | The response holds exactly the relayed reply |
| Gateway.ManualProxy | api-gateway/server.js:57-120 | One request, the proxy call built from the client request, is sent; the response holds exactly the proxy reply to its settled exchange |
| Gateway.ProxyForwardsIdentity | api-gateway/server.js:76-79 | An admitted identity reaches the backend as `X-User-ID` |
| Gateway.ProxyForwardsClientUserId | api-gateway/server.js:70-79 | The outbound options keep a client's own `x-user-id` unchanged. Without an identity no `X-User-ID` is added, so the backend receives the id the client chose |
| Gateway.AuthHeaders | api-gateway/server.js:134-151 | The auth-service headers are the client's without `host` and `content-length`, plus a JSON content type when there is a body |
| Gateway.ProfileName | api-gateway/server.js:173 | The profile's name is the email when it is truthy, `Utilizador <id>` otherwise; it is always truthy |
| Gateway.WithNote | api-gateway/server.js:183-193 | `{ ...body, key: text }` has the note under `key` and every other field of the body unchanged |
| Gateway.SagaReply | api-gateway/server.js:175-198 | The client always gets the auth service's status. The body is unchanged when there is no user-service URL or the profile answer is 2xx. It gets the warning note for any other answer and the error note for a failed call |
| Gateway.WriteSagaReply | api-gateway/server.js:175-198 | The response holds exactly the saga reply |
| Gateway.BuildAuthCall | api-gateway/server.js:134-151 | The auth-service request is built with the target, path, method, rewritten headers and body |
| Gateway.BuildProfileCall | api-gateway/server.js:162-173 | The profile request is a POST to `/api/users/<id>/profile` with `{ name }` |
| Gateway.FinishAuth | api-gateway/server.js:156-210 | A registration answered with 201 and a user id runs the saga: one profile request when the user-service URL is set, then the saga reply. Any other answer is relayed with no further request |
| Gateway.AnswerAuth | api-gateway/server.js:153-219 | A rejected auth call gives the 504/502 reply with no further request; an answer continues as above |
| Gateway.ForwardAuth | api-gateway/server.js:153-219 | The auth request is sent first, then what its settled answer leads to; the log gains exactly those requests |
| Gateway.AuthHandler | api-gateway/server.js:129-221 | The whole handler: the requests sent and the reply are exactly those of the auth flow for this client request |
| Gateway.AuthCallsFirst | api-gateway/server.js:153-176 | Every `/api/auth` request goes to the auth service first and leads to at most one more request |
| Gateway.SagaRunsOnlyOnRegistration | api-gateway/server.js:156-161 | A second request is made exactly when the auth service answered a `POST /api/auth/register` with 201 and a truthy user id and the user-service URL is set |
| Gateway.SagaProfileRequest | api-gateway/server.js:162-176 | The second request is a POST to the user service's profile path for the new id, with only a JSON content type and the body `{ name }` |
| Gateway.NonSagaRelays | api-gateway/server.js:199-210 | Outside the saga the auth answer is relayed exactly as the generic proxy would relay it, with no second request |
| Gateway.SagaKeepsAuthStatus | api-gateway/server.js:178-197 | In the saga the client gets 201 with a JSON body, whatever happened to the profile |
| Gateway.AuthTransportFailure | api-gateway/server.js:211-219 | A timed-out auth call gives 504 with the auth timeout text; another request error gives 502. There is no second request |
| Gateway.SagaOutcomesDistinguishable | api-gateway/server.js:178-194 | When the auth body carries no note of its own, the warning note appears exactly for a non-2xx profile answer, and the error note exactly for a failed call |
| Gateway.ProfilePathCarriesUserId | api-gateway/server.js:163 | A numeric user id is written into the profile path so that `parseInt` reads it back |
| Gateway.ProtectedProxy | api-gateway/server.js:229 | A refused request sends nothing and gets the gate's reply. An admitted one sets `req.user` and sends exactly the proxy call carrying those claims, and the client gets the proxy reply |
| AuthService.PublicView | auth-service/src/services/auth.service.js:37-39 | The returned user has no `password`, and keeps the new id and the email |
| AuthService.FindByEmail | auth-service/src/services/auth.service.js:28 | The lookup finds the first row with that email, or reports that no row has it |
| AuthService.FindByEmailUnique | auth-service/src/models/user.model.js:15 | With emails unique, the row found is the one with that email |
| AuthService.LoginError | auth-service/src/services/auth.service.js:91-98 | An error starting with `Credenciais inválidas` is passed on; any other becomes the generic login error |
| AuthService.TokenPayload | auth-service/src/services/auth.service.js:76-80 | The token's claims have the user's id as `sub`, and the email |
| AuthService.UserStore.RegisterUser | auth-service/src/services/auth.service.js:19-48 | Missing credentials give the "required" error. A taken email gives the generic registration error. A unique-constraint error from the insert gives "already registered", and any other insert error the generic one. Success appends one row with the next id and the hashed password, and returns it without the password. On error the table is unchanged |
| AuthService.UserStore.LoginUser | auth-service/src/services/auth.service.js:58-99 | Checked in order: missing credentials, then a lookup error (through the catch block), then an unknown email, then a wrong password. Success exactly when the user exists and the password matches; it returns the signed token, the id, the email and the lifetime |
| AuthService.CredentialErrorsPassThrough | auth-service/src/services/auth.service.js:95-98 | The two credential errors and the generic login error leave the catch block unchanged |
| AuthController.Register | auth-service/src/controllers/auth.controller.js:4-31 | Missing credentials give 400, without the service. Success gives 201 with the message, id and email. 409 exactly for "already registered"; 400 exactly for the "required" error; 500 with the message otherwise |
| AuthController.Login | auth-service/src/controllers/auth.controller.js:33-55 | Missing credentials give 400. Success gives 200 with the login result. 401 with the message exactly for errors starting with `Credenciais inválidas`; the service's "required" error gives 400; 500 for the rest |
| AuthController.GuardIgnoresService | auth-service/src/controllers/auth.controller.js:8-10 | Without both credentials the reply does not depend on the service |
| AuthController.RegisteredReplyNamesUser | auth-service/src/controllers/auth.controller.js:15-19 | The 201 body names the stored id and email and holds no password |
| AuthController.DuplicateEmailIsServerError | auth-service/src/services/auth.service.js:29-47 | A taken email found by the lookup reaches the client as 500; only a unique-constraint error from the insert is a 409 |
| AuthController.CredentialFailuresAre401 | auth-service/src/controllers/auth.controller.js:46-53 | An unknown user and a wrong password both give 401 with the service's message; the generic login error gives 500 |
| Rows.RejectedOne | task-service/src/services/task.service.js:34-44 | A query with one condition fails exactly when that condition is NaN: the ORM writes NaN into the SQL as a bare word, which MariaDB (task-service/src/config/database.js) refuses as an unknown column |
| Rows.RejectedTwo | task-service/src/services/task.service.js:96-98 | A query on two different columns fails exactly when one of its conditions is NaN |
| Rows.RemovedCount | task-service/src/services/task.service.js:153-157 | `destroy` removes one row when the key is present and none otherwise |
| Rows.Strip | task-service/src/services/task.service.js:108-112 | The clean update holds exactly the update's own fields other than the deleted ones, with their values |
| Rows.Updated | task-service/src/services/task.service.js:120 | `instance.update(clean)` gives each writable column the clean value when one is given, and keeps every other column. When something changes, `updatedAt` becomes the given time; when nothing changes, the row is unchanged |
| TaskService.InsertId | task-service/src/services/task.service.js:17 | `Task.create` keeps a positive integer `id` from the caller; otherwise the row takes the next auto-increment id |
| TaskService.CreatedAt | task-service/src/services/task.service.js:17 | A new row keeps a truthy `createdAt` from the caller; otherwise it gets the current time |
| TaskService.NewRow | task-service/src/models/task.model.js:3-62 | A new task has every column, the id it is inserted under, the kept or current `createdAt`, `updatedAt` set to now, and each data column as given or its default (`pendente`, `média`, otherwise null) |
| TaskService.TaskStore.FindOne | task-service/src/services/task.service.js:44 | The query fails exactly when a condition is NaN. Otherwise the row found matches the `where`; in a valid table, none found means no row matches |
| TaskService.TaskStore.ScanFrom | task-service/src/services/task.service.js:73 | The rows listed are exactly the matching rows in the id range |
| TaskService.TaskStore.FindAll | task-service/src/services/task.service.js:73 | The rows listed are exactly the matching rows of the table |
| TaskService.TaskStore.CreateTask | task-service/src/services/task.service.js:10-24 | A missing title or user id gives the "required" error. An insert failure, or an id the caller gave that is already taken, gives the "could not create" error. Success exactly otherwise: the new row under the caller's or the next id, returned, and the next id moves past it. On error the table is unchanged |
| TaskService.TaskStore.GetTaskById | task-service/src/services/task.service.js:32-50 | A failure, a NaN id or a NaN owner gives the lookup error; a result comes back exactly otherwise. A row is returned only when it has that id and, if an owner is given, belongs to them. None returned means no row with that id has that owner |
| TaskService.TaskStore.GetAllTasksByUserId | task-service/src/services/task.service.js:59-79 | A falsy user id gives the "required" error; a failure or a filter naming an unknown column gives the list error. Otherwise the result is the `findAll` of `{ userId, ...filters }` |
| TaskService.TaskStore.UpdateTask | task-service/src/services/task.service.js:90-130 | A failure, a NaN id or a NaN owner gives the update error with the table unchanged; a result comes back exactly otherwise. A row is returned exactly when the task exists and belongs to the user. That row is the old one with the cleaned update applied, and it replaces the old one; nothing else changes |
| TaskService.TaskStore.Save | task-service/src/services/task.service.js:120 | The saved row replaces the old one and the table stays valid |
| TaskService.TaskStore.DeleteTask | task-service/src/services/task.service.js:140-162 | A failure, a NaN id or a NaN owner gives the delete error; a result comes back exactly otherwise. `true` exactly when the task exists and belongs to the user, and then exactly that row is removed; `false` leaves the table unchanged |
| TaskService.StripProtected | task-service/src/services/task.service.js:108-112 | Deleting the four protected fields one at a time gives the clean update |
| TaskService.ApplyUpdate | task-service/src/services/task.service.js:108-120 | The row after the update is the cleaned update applied to the data columns |
| TaskService.UpdatedRowKeepsShape | task-service/src/services/task.service.js:120 | An updated row keeps every column and its own id |
| TaskService.FilterOverridesUserId | task-service/src/services/task.service.js:66-69 | A `userId` filter, spread after the caller's `userId`, replaces it |
| TaskService.UpdateKeepsIdentity | task-service/src/services/task.service.js:108-120 | An update never changes a task's id, owner or creation time |
| TaskController.RowsValue | task-service/src/controllers/task.controller.js:49 | The JSON list has one object per row, in order |
| TaskController.CreateTaskReply | task-service/src/controllers/task.controller.js:22-32 | A created task gives 201 with it. An error gives 400 with its message exactly when the message contains `obrigatórios`, and 500 otherwise |
| TaskController.ListReply | task-service/src/controllers/task.controller.js:48-52 | A list gives 200 with it; an error gives 500 with its message |
| TaskController.RequiredMessageMarked | task-service/src/controllers/task.controller.js:27 | The service's "required" error contains `obrigatórios` |
| TaskController.FailedMessageUnmarked | task-service/src/controllers/task.controller.js:27 | The service's insert failure does not contain `obrigatórios` |
| TaskController.CreateErrorsClassified | task-service/src/controllers/task.controller.js:24-32 | The service's "required" error is a 400 and its insert failure a 500 |
| TaskController.CreateTask | task-service/src/controllers/task.controller.js:5-33 | A missing title or user id gives 400 with the table unchanged. An insert failure or a taken id gives 500. Otherwise 201 with the new row, added under the caller's id or the next one |
| TaskController.GetAllTasks | task-service/src/controllers/task.controller.js:36-53 | A missing query user id gives 400. One that parses to NaN or 0 gives the service's "required" error as 500. A failure gives 500. Otherwise 200 with the user's tasks |
| TaskController.GetTaskById | task-service/src/controllers/task.controller.js:56-70 | A failure or an id that does not parse gives 500 with the lookup error; an existing id gives 200 with that row, whoever owns it; any other integer id gives 404 |
| TaskController.UpdateTask | task-service/src/controllers/task.controller.js:73-96 | A missing permission field gives 400. A failure, an id or a permission value that does not parse gives 500 with the update error. A task the user does not own gives 404. Otherwise 200 with the updated row, which replaces the old one. The table changes only in that last case |
| TaskController.DeleteTask | task-service/src/controllers/task.controller.js:99-120 | A missing permission field gives 400. A failure, an id or a permission value that does not parse gives 500 with the delete error. 204 when the user owns the task, which is then removed; 404 otherwise. The table changes only on 204 |
| ProfileService.Caught | user-service/src/services/userProfile.service.js:31-40 | The catch block gives one of three messages: "exists", "unknown user" or the generic one |
| ProfileService.NewProfile | user-service/src/services/userProfile.service.js:23-29 | A new profile has every column, the next id, the user id, both timestamps, and `name`, `bio` and `avatarUrl` as given (null when missing) |
| ProfileService.ProfileStore.FindByUserId | user-service/src/services/userProfile.service.js:18 | A row found matches the user id; in a valid table none found means none matches |
| ProfileService.ProfileStore.FindByUserIdStored | user-service/src/services/userProfile.service.js:53-57 | In a valid table the lookup finds a row exactly when the user has a profile, and it is that profile |
| ProfileService.ProfileStore.CreateUserProfile | user-service/src/services/userProfile.service.js:11-41 | User id 0 gives the "required" error. A database error on the lookup goes through the catch block, even for an existing profile. Otherwise an existing profile gives the "exists" error; null or undefined data gives the generic error; a database error on the insert goes through the catch block; an id the Users table lacks gives "unknown user". Success exactly otherwise, adding the new profile. On error the table is unchanged |
| ProfileService.ProfileStore.Insert | user-service/src/services/userProfile.service.js:16-30 | The try block throws the lookup's own database error first. Otherwise it throws the "exists" Error for an existing profile, a TypeError for null or undefined data, the insert's database error, or the foreign-key error for an unknown user. Exactly otherwise it inserts the new profile under the next id |
| ProfileService.ProfileStore.GetUserProfileByUserId | user-service/src/services/userProfile.service.js:48-63 | User id 0 gives the "required" error; a failure gives the lookup error; otherwise the user's profile or none |
| ProfileService.ProfileStore.UpdateUserProfile | user-service/src/services/userProfile.service.js:75-102 | User id 0 and a failure give their errors. Otherwise a row is returned exactly when the user has a profile; it is the old one with the cleaned update applied, and it replaces the old one; nothing else changes |
| ProfileService.ProfileStore.Save | user-service/src/services/userProfile.service.js:95 | The saved row replaces the old one and the table stays valid |
| ProfileService.ProfileStore.DeleteUserProfile | user-service/src/services/userProfile.service.js:113-127 | User id 0 and a failure give their errors with the table unchanged; otherwise the user's profile is removed and the result says whether there was one |
| ProfileService.CaughtExisting | user-service/src/services/userProfile.service.js:19-33 | The "exists" Error thrown in the try block leaves the catch block as the "exists" message |
| ProfileService.ExistsMessageMarked | user-service/src/services/userProfile.service.js:32 | The "exists" message contains `Perfil já existe` |
| ProfileService.CaughtTypeError | user-service/src/services/userProfile.service.js:25-39 | Reading a field of null or undefined data ends in the generic error |
| ProfileService.CaughtForeignKey | user-service/src/services/userProfile.service.js:35-36 | A foreign-key failure ends in the "unknown user" message |
| ProfileService.StripProtected | user-service/src/services/userProfile.service.js:89-92 | Deleting the three protected fields one at a time gives the clean update |
| ProfileService.ApplyUpdate | user-service/src/services/userProfile.service.js:89-95 | The row after the update is the cleaned update applied to the data columns |
| ProfileService.UpdatedProfileKeepsShape | user-service/src/services/userProfile.service.js:89-95 | An update never changes a profile's columns, id, user or creation time |
| ProfileService.CreateIgnoresOtherKeys | user-service/src/services/userProfile.service.js:23-29 | Only `name`, `bio` and `avatarUrl` are taken from the profile data |
| ProfileController.CreateReply | user-service/src/controllers/userProfile.controller.js:13-24 | A created profile gives 201 with it. An error gives 409 exactly for a conflict message; 400 exactly for a non-conflict containing `userId é obrigatório`; 500 for the rest |
| ProfileController.CreateErrorsClassified | user-service/src/controllers/userProfile.controller.js:15-24 | The "required" error gives 400, both conflict messages 409, the generic failure 500 |
| ProfileController.RequiredMessageClassified | user-service/src/controllers/userProfile.controller.js:16-20 | The "required" message is no conflict and carries the required marker |
| ProfileController.ExistsMessageConflicts | user-service/src/controllers/userProfile.controller.js:16 | The "exists" message is a conflict |
| ProfileController.UnknownUserMessageConflicts | user-service/src/controllers/userProfile.controller.js:16 | The "unknown user" message is a conflict |
| ProfileController.FailedMessageUnclassified | user-service/src/controllers/userProfile.controller.js:16-23 | The generic failure is neither a conflict nor a "required" error |
| ProfileController.CaughtReply | user-service/src/controllers/userProfile.controller.js:15-24 | A duplicate or an "exists" Error reaches the client as 409 "exists"; a foreign-key failure as 409 "unknown user". Anything else is 500 |
| ProfileController.CreateUserProfile | user-service/src/controllers/userProfile.controller.js:4-25 | A non-numeric id gives 400 invalid; 0 gives 400 required. A database error on the lookup gives its classified reply. Otherwise an existing profile gives 409, null data 500, an insert error its classified reply, and an unknown user 409. Otherwise 201 with the new profile, which is added. The table changes only on 201 |
| ProfileController.GetUserProfile | user-service/src/controllers/userProfile.controller.js:27-44 | A non-numeric id gives 400; 0 gives 500 with the "required" error; a failure gives 500; otherwise 200 with the profile or 404 |
| ProfileController.UpdateUserProfile | user-service/src/controllers/userProfile.controller.js:46-69 | A non-numeric id gives 400; 0 and a failure give 500; no profile gives 404. Otherwise 200 with the updated profile, which replaces the old one |
| ProfileController.DeleteUserProfile | user-service/src/controllers/userProfile.controller.js:71-90 | A non-numeric id gives 400 with the table unchanged; a numeric one is answered as below |
| ProfileController.DeleteByUserId | user-service/src/controllers/userProfile.controller.js:80-89 | 0 and a failure give 500 with the table unchanged; 204 when the user had a profile, which is removed; 404 otherwise |
| ProfileController.ZeroUserIdAnswers | user-service/src/controllers/userProfile.controller.js:19-42 | User id 0 is a 400 when creating but a 500 when reading |

## Left out

- The Express runtime is left out: routing, `app.use` prefixes, `express.json`, the logging middleware and every `console` call. Each handler is called directly.
- `JSON.parse` is a parameter of the transport. `JSON.stringify` is not modelled: a request's post data is the value that would be serialised.
- The gateway's configuration is a parameter: the service URLs, and `user` being `None` when the user-service URL is unset. `new URL` parsing is not modelled; a target is a hostname and a port.
- jsonwebtoken, bcrypt and the clock are oracles or parameters. `jwt.verify` is a function from the token to a verification. `bcrypt.hash`, `bcrypt.compare` and `jwt.sign` are function parameters. Timestamps are a `now` argument.
- Floating-point numbers and Infinity are left out. A number is an integer or NaN.
- Header names are compared case-sensitively. The client's headers are taken to arrive with lower-case names, as Node gives them.
- Gateway.ProxyHeaders: the outbound headers are the `options.headers` object. `http.request` sets them one by one, and header names are case-insensitive, so a client's `x-user-id` and the injected `X-User-ID` become one header holding `user.sub`. The model keeps both keys and does not capture that merge.
- The database is left out, except that a query with a NaN condition fails, as MariaDB refuses it. Column types, coercion, validation (`isEmail`, `isUrl`, `allowNull`) and connection errors are not modelled. Each service operation takes a `fault` argument standing for the error the database would raise.
- The foreign-key error text is an assumption (`ProfileService.ForeignKeyDetail`). Only its name decides the outcome.
- `findAll` lists the matching rows by id. The database gives no order without `ORDER BY`, and the model does not capture every other order.
- An update writes only the data columns of each table; any other key in the update is ignored, as Sequelize ignores attributes the model does not define.
- TaskService.NewRow: a missing `description` or `dueDate` is stored as null, and the model returns that row. The instance `Task.create` returns holds only the given keys, the `status` and `priority` defaults, the id and the timestamps, so the 201 body of `TaskController.CreateTask` would omit those two fields rather than show null.
- `ProfileService.NewProfile` stores a missing field as null. The instance the service returns is not reloaded, so its JSON would omit that field rather than show null.
- Request bodies are objects, as `express.json` gives them. The task and auth handlers read a missing body as an object with no fields. The profile handlers pass null or undefined through, to show the TypeError path.
- Each handler requires a response that is still fresh (`headersSent` false). The `headersSent` branch is modelled only in `Gateway.WriteTransportFailure`.
- Concurrency is not modelled: requests across services, socket events, and two requests racing for the same email or profile. Each handler runs to completion on its own.
- Message constants written as concatenations (for example `TaskService.CreateRequiredMessage`) are the same text as in the source; the model splits them only to keep the proofs short.
- TaskService.InsertId: a caller's `id` that is not a positive integer number (a numeric string, a negative number) is treated as absent; MariaDB's coercion of such values is not modelled. Zero and null are absent in MariaDB too.
- The 30-second socket timeout is not a clock: the network oracle says which request times out.
