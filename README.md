# Daily-planner backend: a Dafny model

This project models the request handling of a small daily-planner backend
(`server.js`). The backend keeps two stores. One holds users, keyed by email.
The other holds planner documents, one per user, keyed by the owner's id.
Five handlers work over them:

- register (`POST /api/register`)
- login (`POST /api/login`)
- read the planner (`GET /api/planner`)
- update the planner (`POST /api/planner`)
- check a session (`GET /api/verify`)

The last three sit behind the `authenticateToken` middleware, which reads a
bearer token from the `Authorization` header.

Modules, one per component:

| file | module | what it holds |
|---|---|---|
| `wrappers.dfy` | `Wrappers` | `Option` |
| `js_strings.dfy` | `JsStrings` | JavaScript's `length` (UTF-16 code units) and `split`/`join` |
| `passwords.dfy` | `Passwords` | bcrypt as an abstract `Hasher` (a hash function and a compare function) with a `Sound` predicate |
| `tokens.dfy` | `Tokens` | JSON Web Tokens as an abstract `Signer` (sign and decode) with a `Sound` predicate; the claims `jwt.sign` makes and the expiry check `jwt.verify` applies |
| `auth.dfy` | `Auth` | token extraction and the middleware's three outcomes (401, 403, proceed) |
| `planners.dfy` | `Planners` | the planner document, its schema defaults and the partial-update rule |
| `server.dfy` | `Server` | class `Server`, whose map-valued fields `users` and `planners` are the two stores, with one method per handler |
| `sessions.dfy` | `Sessions` | client methods: properties of several requests in a row, proved from the handlers' contracts |

The crypto primitives are parameters of the server: a password hasher and a
token signer. The clock, bcrypt's random salt and the new user's ObjectId are
parameters of the requests that use them. Time is in milliseconds, as
`Date.now()` gives it. Token claims are in whole seconds, as jsonwebtoken
computes them.

Three behaviours of the code that are easy to miss:

- The first word of the `Authorization` header is never checked
  (server.js:45). Only the second space-separated word is taken. So
  `"Token abc"` and `" abc"` both carry the token `abc`, and `"Bearer  abc"`
  (two spaces) carries none.
- A null `dailyData` or `weeklyData` makes `Object.entries` throw
  (server.js:181, 184) before `save` (server.js:191). The answer is 500 and
  nothing is stored, not even a new planner.
- The password length check (server.js:71) counts UTF-16 code units, not
  characters.

## Model

| member | source | states |
|---|---|---|
| `JsStrings.Utf16LengthBounds` | server.js:71 | the length JavaScript compares with 6 lies between the number of characters and twice that |
| `JsStrings.Utf16LengthBmp` | server.js:71 | for text inside the Basic Multilingual Plane that length is the number of characters |
| `JsStrings.Split` | server.js:45 | `split(' ')` gives at least one piece, and no piece contains the separator |
| `JsStrings.JoinSplit` | server.js:45 | joining the pieces of `split` with the separator gives back the header |
| `Tokens.Issue` | server.js:99-103 | a token's claims name the user it is signed for; `exp` is `iat` plus 30 days in seconds; `iat` is the issue time rounded down to the second |
| `Tokens.Verify` | server.js:51-55 | verification succeeds exactly when the signature decodes and the current second is before `exp`; it yields the user id in the claims |
| `Tokens.IssuedTokenVerifies` | server.js:51-55 | a token the server signed verifies to its own user id exactly while it is unexpired |
| `Tokens.IssuedTokenWindow` | server.js:102 | in milliseconds: a token is accepted until one second short of 30 days after issue, and rejected from 30 days on |
| `Auth.ExtractToken` | server.js:44-45 | no header gives no token; a token found is non-empty and has no space |
| `Auth.NoSpaceNoToken` | server.js:45-48 | a header without a space carries no token |
| `Auth.SecondWordIsToken` | server.js:45-48 | for any first word, the token is the second space-separated word; no token when that word is empty; the first word is never checked |
| `Auth.Authenticate` | server.js:43-58 | no token gives 401 "Access token required"; a token that fails verification gives 403 "Invalid or expired token"; otherwise the request proceeds as the user the token names |
| `Auth.IssuedTokenAuthenticates` | server.js:43-57 | a server-issued token after any first word authorises exactly its own user while unexpired, and is refused with 403 after that |
| `Planners.ApplyUpdate` | server.js:180-190 | it fails exactly when `dailyData` or `weeklyData` is null; undefined fields are kept; a present mapping replaces the old one wholesale; null clears `heroImage`; `lastUpdated` is the update time; the owner does not change |
| `Planners.UpdatesCompose` | server.js:180-188 | two successful updates equal one update in which the later defined field wins; nothing of an overwritten mapping survives |
| `Planners.UpdateIdempotent` | server.js:180-190 | repeating a successful update changes only the timestamp |
| `Planners.EmptyUpdateTouchesOnlyTimestamp` | server.js:180-190 | an update that defines no field only refreshes `lastUpdated` |
| `Server.RegisterRejection` | server.js:67-79 | registration checks in this order: a missing or empty field gives "Email and password required"; then a password shorter than 6 gives "Password must be at least 6 characters", even when the email is taken; then a registered email gives "Email already registered"; registration is accepted exactly when all three pass |
| `Server.AuthFailure` | server.js:47-54 | the middleware answers 401 "Access token required" for a missing token and 403 "Invalid or expired token" for a rejected one |
| `Server.PlannerOrNew` | server.js:150-156 | a handler works on the stored planner, or on a new planner with the schema defaults when there is none |
| `Server.Server.Register` | server.js:63-110 | a rejection answers 400 with its message and leaves both stores unchanged; a success adds exactly one user (with the bcrypt digest, not the plaintext) and one empty planner (`{}`, `{}`, null) under the new id, and answers a token for that id with the stored email |
| `Server.Server.Login` | server.js:113-145 | a missing field gives 400; an unknown email and a wrong password give the identical 401 "Invalid email or password"; a matching password gives a token for that user's id and the stored email; no store changes |
| `Server.Server.GetPlanner` | server.js:148-167 | an authorised caller without a planner gets a new empty one stored and returned as `{}`, `{}`, null; a caller with a planner gets its three fields and nothing changes; only the caller's entry can change; auth failures change nothing |
| `Server.Server.UpdatePlanner` | server.js:170-198 | the caller's stored (or new) planner is replaced by the partial update of it; a null mapping gives 500 "Failed to update planner data" and stores nothing; no other planner and no user changes |
| `Server.Server.VerifySession` | server.js:201-208 | an authorised caller gets `{ email }` of the user with the token's id, or 401 "Invalid token" when no user has it; no store changes |
| `Sessions.RegisterThenLogin` | server.js:82-90 | after a successful registration, login with the same password answers 200 with a token for the new id and the same email |
| `Sessions.RegisterTwice` | server.js:75-79 | a second registration of an email answers 400 whatever the password, with "Email already registered" when the password is long enough, and keeps the first user, its digest and its planner exactly as they were, creating nothing for the second id |
| `Sessions.RegisterThenVerify` | server.js:99-105 | the token a registration returns, sent back while unexpired after any first word, makes verify answer with the registered email |
| `Sessions.UpdateThenGet` | server.js:158-162 | after a successful update, a read returns exactly the written values, and the earlier values of the fields the update left undefined |
| `Sessions.TokenIsolation` | server.js:174 | an update sent with a token issued to one user neither changes nor creates any other user's planner |
| `Sessions.ExampleSession` | server.js:93-96 | from an empty server: register gives a token; the first read gives `{}`, `{}`, null; setting only `heroImage` succeeds; the next read shows the image with both mappings still empty |

## Left out

- Express wiring: CORS, static files, the 10 MB body limit and `listen`. This is framework plumbing.
- The MongoDB connection and driver. The two collections become maps. So the 500 answers these handlers give on storage or driver failures ("Registration failed", "Login failed", "Failed to retrieve planner data") are never reached.
- Register is not atomic in the source: a user saved without its planner when the second save fails is not modelled.
- The race between concurrent registrations and the database's unique index on email: concurrency, outside a sequential model. The same goes for last-write-wins between concurrent planner updates.
- bcrypt is abstract. The salt is a parameter. `Passwords.Sound` says only that a password matches every digest made from it. Collision behaviour is not modelled, nor is bcrypt's truncation of passwords to 72 bytes.
- JSON Web Tokens are abstract. `Tokens.Sound` says that the server's own tokens decode to their claims and contain no space. That forged tokens are refused is cryptography and is not modelled. The default secret is configuration.
- ObjectIds are natural numbers supplied by the caller, fresh by precondition (`IdUnused`). Cast errors for a malformed id in a token are not modelled.
- The schema lower-cases stored emails. The model treats every email as already lower-case, so the store key, the stored email and the returned email are the same string. Unicode case mapping is not modelled.
- Request fields are modelled as strings (email, password, `heroImage`) or as key-to-value mappings (`dailyData`, `weeklyData`), each possibly missing or null. The model does not cover other JSON types:
  - a numeric password skips the length check and makes bcrypt throw;
  - `Object.entries` of a string or an array;
  - Mongoose's casting of a non-string `heroImage`;
  - an object-valued email such as `{"$gt": ""}`, which `User.findOne` (server.js:76, 122) reads as a query operator, so login can match an arbitrary stored user whose password happens to match.
- Lone UTF-16 surrogates (JSON `"\ud800"`) cannot be part of a Dafny `string`, although JavaScript's `length` (server.js:71) counts them.
- Mongoose's refusal of map keys that contain `.` or start with `$` is not modelled.
- Planner entries are an uninterpreted JSON value type. Its numbers are integers (floating point is left out). Key order of mappings is not modelled.
- `createdAt` and `lastUpdated` take the request's time parameter in place of `Date.now()`. Console logging is left out.
