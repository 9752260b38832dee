# Authentication and session gate of a user-account backend

This project models the user-account core of an Express/Mongoose backend:
registration, login, profile retrieval behind the `authUser` middleware, and
logout, which records the session token in a revocation collection with a
24-hour TTL. The model is a small state machine over
- an abstract user store (`UsersModel.UserStore`),
- the revocation table (`BlackListTokenModel.BlackList`, which also holds the integer clock in seconds),
- and bcrypt and jsonwebtoken as uninterpreted functions (`Crypto.Bcrypt`, `Crypto.Jwt`).

What the libraries promise is stated as ghost predicates: `BcryptCorrect`,
`JwtComplete` and `JwtSound`. A lemma that relies on one of them names it in
its `requires`, so every such fact is visibly an assumption about the library.

Modules follow the source files:
- `UsersModel`: `Models/users.model.js`.
- `BlackListTokenModel`: `Models/blackListToken.model.js`.
- `UserService`: `Services/user.service.js`.
- `AuthMiddleware`: `Middlewares/auth.middleware.js`.
- `UserController`: `Controllers/user.controller.js`.
- `UserRoutes`: `routes/user.route.js`.

Supporting modules:
- `Common`, `Crypto`: shared types and the two libraries.
- `Http`: the request object and the response values.
- `Session`: properties that span several files, plus three end-to-end runs.

The request is a class. The validators write its `errors` field and the gate
writes its `user` field. The stores are classes whose methods state their whole
new state. A handler's response is a value (`Http.Reply`): a status, a JSON
body and what happens to the `token` cookie. A handler can also end in
`Unhandled(fault)`: its promise rejects and this code sends no response.

## Behaviour that differs from the documented design

The model follows the code in each of these cases.
- `authUser` does not reject a token whose subject no longer exists: `req.user` becomes `null` and `next()` runs (`Authenticate`, `GetProfile`).
- When `jwt.verify` throws, the 401 body is `{ message: err }` with the library's error object, not a fixed message (`Json.VerifyFailure`).
- Revoking an already-revoked token, or logging out with no token, is not treated as success. `create` rejects on the unique index or the `required` validator, and the rejection escapes `logoutUser` (`LogoutUser`).
- The register and login responses carry the stored password digest. `create` returns the whole document, and login selects `+password` (`RegisterUser`, `LoginUser`). Only `findById` in the gate leaves the password out.

## Model

| member | source | states |
|---|---|---|
| `UsersModel.HashPassword` | backend/Models/users.model.js:55-57 | the digest is bcrypt at cost 10 with the given salt, and a correct bcrypt accepts the plaintext against it |
| `UsersModel.ComparePassword` | backend/Models/users.model.js:50-52 | a correct bcrypt matches a plaintext against any digest made from it; the record is a value and is not changed |
| `UsersModel.GenerateAuthToken` | backend/Models/users.model.js:44-47 | the token verifies right away with subject `this.id`, issued now, expiring 24 h later |
| `UsersModel.IssuedTokenLifetime` | backend/Models/users.model.js:45 | an issued token verifies with its subject at every instant before issue + 86400 s and is rejected as expired from then on |
| `UsersModel.FindByEmail` | backend/Controllers/user.controller.js:45 | a result has the email and is in the store; no result means no document has that email |
| `UsersModel.FindByEmailUnique` | backend/Models/users.model.js:21-27 | with emails unique, `findOne({email})` returns exactly the document that has that email |
| `UsersModel.FindById` | backend/Middlewares/auth.middleware.js:21 | a result has the id and is in the store; no result means no document has that id |
| `UsersModel.FindByIdDefault` | backend/Middlewares/auth.middleware.js:21 | `findById` with the default projection: same hit or miss as `FindById`; the password (`select: false`) is never included and every other field is the document's |
| `UsersModel.UserStore.Create` | backend/Models/users.model.js:7-38 | schema validation (`firstname` >= 3, `lastname` >= 3 if present, `email` >= 5, password required), then the unique email index; on success the store holds exactly one more document with the next id, otherwise it is unchanged |
| `BlackListTokenModel.BlackList.FindOne` | backend/Middlewares/auth.middleware.js:14 | a found token is non-empty and was revoked at some point |
| `BlackListTokenModel.BlackList.Create` | backend/Models/blackListToken.model.js:3-14 | a falsy token fails `required`; an existing token fails the unique index; otherwise exactly that token is added with `createdAt` equal to the clock; the invariant that a revoked token keeps its record for 86400 s is preserved |
| `BlackListTokenModel.BlackList.Tick` | backend/Models/blackListToken.model.js:11 | the clock advances and the records stay as they are |
| `BlackListTokenModel.BlackList.Sweep` | backend/Models/blackListToken.model.js:12 | the TTL monitor deletes only records whose `createdAt + 86400` has passed; any such record may go; the rest are unchanged |
| `UserService.CreateUser` | backend/Services/user.service.js:5-24 | a falsy firstname, email or password throws 'All Fields are Required!' and leaves the store unchanged; otherwise the store's create runs on the copied fields (no hashing) and the created record is returned |
| `AuthMiddleware.Split` | backend/Middlewares/auth.middleware.js:8 | `split(' ')` yields at least one piece and no piece contains a space |
| `AuthMiddleware.JoinSplit` | backend/Middlewares/auth.middleware.js:8 | joining the pieces back with spaces gives the original header |
| `AuthMiddleware.SplitPiece` | backend/Middlewares/auth.middleware.js:8 | a header without a space is a single piece |
| `AuthMiddleware.SplitAfterPiece` | backend/Middlewares/auth.middleware.js:8 | a space-free word followed by a space is the first piece, and the remainder is split on its own |
| `AuthMiddleware.SplitJoin` | backend/Middlewares/auth.middleware.js:8 | splitting space-free pieces joined by spaces gives the pieces back |
| `AuthMiddleware.HeaderToken` | backend/Middlewares/auth.middleware.js:8 | the header token, when there is one, is non-empty and contains no space |
| `AuthMiddleware.ExtractToken` | backend/Middlewares/auth.middleware.js:8 | a truthy cookie wins whatever the header says; otherwise the header's second field; an extracted token is never empty |
| `AuthMiddleware.BearerToken` | backend/Middlewares/auth.middleware.js:8 | with no truthy cookie, `<scheme> <token>` yields the token whatever the scheme word |
| `AuthMiddleware.HeaderWithoutSpace` | backend/Middlewares/auth.middleware.js:8 | with no truthy cookie, a header without a space yields null |
| `AuthMiddleware.EmptySecondField` | backend/Middlewares/auth.middleware.js:8 | with no truthy cookie, a header `w + " " + r` whose second field is empty (`r` empty or starting with a space) yields null |
| `AuthMiddleware.Authenticate` | backend/Middlewares/auth.middleware.js:6-29 | no token gives 401 Unauthorized; a revoked token gives 401 Unauthorized whatever verification would say; a verification error gives 401 with that error; `next()` happens exactly when an unrevoked token verifies, with `req.user` set to `findById(sub)` even when that is null; every halt is a 401 |
| `AuthMiddleware.AuthUser` | backend/Middlewares/auth.middleware.js:6-29 | the middleware decides as `Authenticate` does on the current stores and clock; it writes `req.user` only on the way to `next()` and leaves it unchanged on a 401 |
| `UserController.RegisterUser` | backend/Controllers/user.controller.js:9-33 | validation errors give 400 with the list and leave the store alone; on 200 the store gained exactly one document whose password is `hash(password)`, and the body is that document with its token; no cookie is set; the 200 happens exactly when the service and the schema accept |
| `UserController.LoginUser` | backend/Controllers/user.controller.js:37-58 | validation errors give 400; an unknown email and a wrong password give the same 401 "Invalid Email or Password"; on success the `token` cookie and the body hold the same freshly issued token |
| `UserController.LogoutUser` | backend/Controllers/user.controller.js:68-73 | the token is extracted exactly as the gate does and exactly that token is recorded with the current time, and its revocation time is kept; a missing or already-recorded token makes the handler reject and nothing changes; the user store is not touched |
| `UserRoutes.RegisterValidation` | backend/routes/user.route.js:10-15 | each error is present exactly when its check fails (isEmail, firstname >= 3, password >= 6); the list is empty exactly when all three pass |
| `UserRoutes.LoginValidation` | backend/routes/user.route.js:19-23 | each error is present exactly when its check fails (isEmail, password >= 6); the list is empty exactly when both pass |
| `UserRoutes.PostRegister` | backend/routes/user.route.js:10-15 | validation errors give 400 with the list; a 200 happens only for a body that passes the three validators, and it stores exactly the hashed-password document it returns; every other outcome, a rejected promise included, leaves the store unchanged |
| `UserRoutes.PostLogin` | backend/routes/user.route.js:19-23 | a 200 happens only for a body that passes both validators and whose password matches the stored digest; both credential failures give the same 401 |
| `UserRoutes.GetProfile` | backend/routes/user.route.js:26 | the profile handler runs only when the gate calls `next()`, and then the 200 body is the `req.user` the gate set, `null` included; a 200 implies the gate accepted; otherwise the gate's 401 is the response and `req.user` is untouched |
| `UserRoutes.PostLogout` | backend/routes/user.route.js:30 | no gate: any present, not-yet-revoked token is recorded with the current time and answered with 200 and a cleared cookie, with no call to the JWT library; a missing or already-recorded token rejects the promise and changes nothing |
| `Session.EvictedTokenHasExpired` | backend/Models/blackListToken.model.js:12 | once a revocation record is due for deletion, the token it names (issued at or before revocation) is already rejected as expired |
| `Session.RevokedTokenNeverAccepted` | backend/Middlewares/auth.middleware.js:14-28 | in every state the revocation table can reach, a token revoked after it was issued is refused by the gate: its record is still present, or the token has expired |
| `Session.AcceptedTokenIsCurrent` | backend/Middlewares/auth.middleware.js:19-25 | with an unforgeable JWT library, an accepted token is unrevoked, unexpired and signed; `req.user`, if found, is the token's subject without its password |
| `Session.SignUp` | backend/Controllers/user.controller.js:9-33 | registering a well-formed body stores one document with the hashed password and returns it with a token and no cookie; a malformed email gives 400 `[Invalid Email]` |
| `Session.LogIn` | backend/Controllers/user.controller.js:37-58 | the right password gives the session token as both cookie and body; a wrong password and an unknown email give the same 401 |
| `Session.LogOut` | backend/Controllers/user.controller.js:68-73 | with the session cookie the profile is served; after logout the same cookie gets 401 |
| `Session.LoggedOutTokenStaysRefused` | backend/Controllers/user.controller.js:68-73 | after a logout through the route of a token issued no later than now, any sequence of clock advances, TTL passes and further logouts leaves the gate refusing that token |
| `Session.NoToken` | backend/Middlewares/auth.middleware.js:10-12 | a request with no token (a header with a scheme word only) gets 401 Unauthorized |

## Left out

- `backend/DB/db.js`: the database connection and its console logging are I/O.
- bcrypt and JSON Web Token internals: these are uninterpreted functions. `BcryptCorrect`, `JwtComplete` and `JwtSound` are assumptions about those libraries, not something this code proves.
- bcrypt's random salt is a parameter of `HashPassword`.
- `process.env.SECRET` is a parameter. It is configuration.
- Promises, `async`, Express dispatch, `res.status().json()` serialization, cookie-parser and the plumbing of `validationResult`: a response is a status, a body value and a cookie action.
- Non-string JSON values in the body (numbers, objects, `null`) are not modelled: every body field is a string or missing.
- `isEmail` is an abstract predicate. The validator library's grammar is not shown.
- How a missing field is turned into text for the validators is simplified: it becomes the empty string, and other coercions are not modelled.
- Error messages of the Mongoose schema validators are not carried: a failed schema check is `ValidationError("user")`.
- Error objects beyond their kind are not carried: `JwtError` keeps only which of the two errors `jwt.verify` threw.
- `LoginUser`: a body without an email is modelled as matching no document. What Mongoose does with `findOne({ email: undefined })` depends on its query-casting options, which are not shown. The login validators reject such a body before the handler anyway.
- `AuthUser`: a `findById` that throws (a malformed id) is not modelled. Ids are natural numbers.
- `LogoutUser`: the `clearCookie` call on a path that then rejects is not represented, because no response is sent.
- The TTL monitor's timing: eviction is permitted, not forced, once `createdAt + 86400 s` has passed (`Sweep`).
- Time is whole seconds throughout. `Date.now` milliseconds are not modelled.
- `EvictedTokenHasExpired`, `RevokedTokenNeverAccepted`, `LoggedOutTokenStaysRefused`: one clock stands for the Node process's `Date.now` (which stamps `createdAt` and which `jwt.sign` and `jwt.verify` read) and for the database server's clock (which the TTL monitor reads). With clock skew between the two, a record could be evicted while the token is still unexpired, and these results do not cover that.
- `SchemaValid`, `UserStore.Create`, `RegisterValidation`, `LoginValidation`: a string's length is the number of its characters. Mongoose's `minlength` counts UTF-16 code units, and the validator library's `isLength` counts code points, leaving out the variation selectors U+FE0E and U+FE0F. The three counts agree on text without astral characters or variation selectors, and only there do these contracts match the source exactly.
- Concurrent requests: each request runs atomically against the shared stores.
- `socketId` and the realtime features: no logic in these files. New documents simply have no `socketId`.
