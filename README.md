# Auth and LLM bookkeeping backend, modelled in Dafny

The system is two Flask services. The **user service** registers users,
issues JWT access tokens together with rotating refresh tokens, and
administers roles behind an admin gate. The **LLM service** keeps
conversations, messages, prompt templates, document-processing records and
usage logs around calls to an external language-model provider.

This project models the parts of both services that do not depend on the
provider, and proves properties about them:

- `common.dfy` (`Common`): `Option`/`Result`, id and time types, and sequence
  helpers. These are first-match search, filtering, removal, reversal and a
  top-N-by-key selection, which stands for `ORDER BY … DESC LIMIT n`.
- `crypto.dfy` (`Crypto`): bcrypt, SHA-256 and JWT as symbolic terms.
  - A password hash records the password it was made from, and checking it
    means equality with that password.
  - A digest records its preimage, so it is injective.
  - A token decodes to exactly the claims the key signed for it, until its
    `exp`.
- `auth_models.dfy` (`AuthModels`): the `users`, `roles`, `user_roles` and
  `refresh_tokens` rows with their model methods: password hashing, role and
  permission lookup, `to_dict`, and refresh-token expiry and revocation.
- `auth_schemas.dfy` (`AuthSchemas`): the Pydantic request schemas as
  validation functions. Each one either builds the model or reports the
  failing fields.
- `auth_service.dfy` (`AuthService`): `AuthService` and `RoleService`.
  - Each flow is a function from the database state `Db` to a result and
    the next state.
  - The class `AuthStore` holds the four tables as fields. Its methods
    update them in place, and each method is proved to perform exactly the
    step its function describes.
  - Every flow preserves the database constraints: keys, unique columns and
    foreign keys.
  - Multi-step lemmas cover refresh-token single use, logout, idempotent
    default-role seeding and role assignment.
- `auth_routes.dfy` (`AuthRoutes`): the HTTP handlers as functions from
  state, JWT claims and request body to a status, an error message and the
  next state.
- `llm_models.dfy` (`LlmModels`): the LLM service's rows.
  - `Conversation.to_dict` and `get_recent_messages` are functions.
  - `DocumentProcessing` is a class whose `mark_completed` and
    `mark_failed` update its fields.
- `llm_service.dfy` (`LlmService`): the `LLMService` bookkeeping. The class
  `LlmStore` holds the conversations, messages and usage logs, and
  implements:
  - listing and deleting conversations;
  - logging usage;
  - the two bucket loops of `get_user_usage_stats`.

  The history-to-provider-message loop of `chat` is a method proved against
  a reference function.
- `llm_templates.dfy` (`TemplateService`): `PromptTemplateService` over the
  class `TemplateStore`, including the keyword-argument update loop.

Environment inputs are parameters of the model:

- the current time (`now`, in seconds);
- the bcrypt salt;
- the freshly minted token strings (`FreshPair`: two distinct strings the key
  has never signed);
- the e-mail validator behind `EmailStr` (`emailStr`), which refuses a string
  or returns the normalized address that is then stored and compared;
- the JWT claims of the caller.

Points where the code behaves differently from what its names suggest, and which
the model follows:

- `RefreshToken.is_expired` is strict (`now > expires_at`). A token is
  therefore still valid at the instant `expires_at`.
- `create_role` compares names exactly. The lower-casing happens only in the
  request schema.
- When an e-mail and a username belong to two different users,
  `register_user` reports whichever of those users comes first in the table.
  It does not always report the e-mail.
- `get_user_usage_stats` omits `period_days` when the window is empty.

## Model

| member | source | states |
|---|---|---|
| Common.FirstIndex | user_service/src/services/auth_service.py:19-21 | The result is the least index satisfying the predicate, and `None` exactly when no element does (`.first()` of a filtered query) |
| Common.FirstIndexAppend | user_service/src/services/auth_service.py:242-252 | Appending an element keeps an earlier match; otherwise the new element is found exactly when it matches |
| Common.Filter | llm_service/src/services/llm_service.py:102-104 | The kept rows all satisfy the predicate, every row that satisfies it is kept, and no row is invented (`filter_by`) |
| Common.TopN | llm_service/src/models/llm.py:38-40 | `ORDER BY key DESC LIMIT n`: `min(n, len)` rows drawn from the input, sorted descending, and no row left out outranks one returned |
| Common.Reverse | llm_service/src/services/llm_service.py:167 | `list.reverse()`: the same length, with element i of the result being element len-1-i of the input |
| Crypto.HashPassword | user_service/src/models/auth.py:25-28 | The hash records the salt it was made with |
| Crypto.CheckHashedPassword | user_service/src/models/auth.py:30-32 | `checkpw` accepts the hashed password and, for passwords of at most 72 bytes, rejects every other one |
| Crypto.Sha256Injective | user_service/src/services/auth_service.py:84 | Equal SHA-256 digests have equal preimages, which the refresh-token lookup relies on |
| Crypto.AccessClaims | user_service/src/services/auth_service.py:72-80 | An access token's claims carry its subject and role names and expire 30 minutes after issue |
| Crypto.RefreshClaims | user_service/src/services/auth_service.py:81 | A refresh token's claims carry no roles and expire 7 days after issue |
| Crypto.DecodeToken | user_service/src/services/auth_service.py:111 | Decoding succeeds exactly for a token the key signed that is not past its `exp`, and yields its claims |
| AuthModels.SetPassword | user_service/src/models/auth.py:25-28 | Afterwards the new password checks and, for passwords of at most 72 bytes, no other one does; no column other than the hash changes |
| AuthModels.FindRole | user_service/src/services/auth_service.py:305 | `Role.query.get`: the role with that id, `None` exactly when no role has it |
| AuthModels.GetRoles | user_service/src/models/auth.py:34-36 | The user's roles are drawn from the roles table, one at most per association row |
| AuthModels.RoleNames | user_service/src/services/auth_service.py:77 | The names of the roles, in order |
| AuthModels.HasRoleIff | user_service/src/models/auth.py:38-40 | `has_role` holds exactly when some association row of the user points at a role with that name |
| AuthModels.HasPermissionIff | user_service/src/models/auth.py:42-47 | `has_permission` holds exactly when some role of the user has the permission as a key of its map |
| AuthModels.HasPermissionIgnoresActions | user_service/src/models/auth.py:42-47 | A role granting only `read` on `users` still passes `has_permission("users")`: the actions are never consulted |
| AuthModels.GetRolesUnassigned | user_service/src/models/auth.py:34-36 | A user without association rows has no roles |
| AuthModels.GetRolesAppend | user_service/src/models/auth.py:34-36 | Adding an association row of the user for a stored role appends that role to the user's roles |
| AuthModels.ToDict | user_service/src/models/auth.py:49-66 | Every public column (id, e-mail, username, names, flags, timestamps) copied from the row, plus the role names only when `include_roles` is set |
| AuthModels.Revoke | user_service/src/models/auth.py:134-136 | The row is revoked, no other column changes, and it is invalid at every time |
| AuthModels.ExpiryBoundary | user_service/src/models/auth.py:126-128 | A token is not expired at `expires_at`, is expired one second later, and an unrevoked one is valid at `expires_at` |
| AuthModels.ValidIff | user_service/src/models/auth.py:130-132 | Valid exactly when unrevoked and not past `expires_at` |
| AuthModels.RevokeIdempotent | user_service/src/models/auth.py:134-136 | Revoking twice is revoking once |
| AuthSchemas.ToLower | user_service/src/schemas/auth.py:128 | `str.lower()`: upper-case ASCII letters lowered, every other character kept |
| AuthSchemas.StripSeparators | user_service/src/schemas/auth.py:126 | The result is no longer than the input and contains no `_` or `-` |
| AuthSchemas.CheckLength | user_service/src/schemas/auth.py:8-9 | Accepted exactly when the length is within the field's bounds |
| AuthSchemas.ValidatePassword | user_service/src/schemas/auth.py:9-27 | Accepted exactly when 8 to 128 long with an upper-case letter, a lower-case letter and a digit; the first missing class decides the message |
| AuthSchemas.PasswordExamples | user_service/src/schemas/auth.py:19-27 | Concrete accepted and rejected passwords, with the message each gets |
| AuthSchemas.ValidateUsername | user_service/src/schemas/auth.py:13-17 | Accepted exactly when 3 to 100 long and either alphanumeric or containing an underscore anywhere |
| AuthSchemas.UsernameUnderscoreQuirk | user_service/src/schemas/auth.py:13-17 | One underscore admits any other characters, spaces and punctuation included |
| AuthSchemas.ValidateUsernameUpdate | user_service/src/schemas/auth.py:32-42 | An absent username passes; a present one obeys the registration rule |
| AuthSchemas.StripMembers | user_service/src/schemas/auth.py:126 | Stripping keeps exactly the characters that are not `_` or `-` |
| AuthSchemas.StripSeparatorsAlnum | user_service/src/schemas/auth.py:126 | The stripped name is alphanumeric exactly when the name has only letters, digits, `_` and `-`, and at least one letter or digit |
| AuthSchemas.ValidateRoleName | user_service/src/schemas/auth.py:120-128 | Accepted exactly when 1 to 100 long with the allowed characters; the accepted value is lower-cased |
| AuthSchemas.RoleNameNormalised | user_service/src/schemas/auth.py:124-128 | An accepted role name has no upper-case letter and validates again to itself |
| AuthSchemas.RoleNameExamples | user_service/src/schemas/auth.py:124-128 | "Data-Analyst" becomes "data-analyst"; separators alone are rejected |
| AuthSchemas.ValidateRoleNameUpdate | user_service/src/schemas/auth.py:131-140 | An absent name passes; a present one obeys the creation rule and is lower-cased |
| AuthSchemas.Required | user_service/src/schemas/auth.py:7-9 | An absent required field is reported missing; a present one is checked |
| AuthSchemas.OptionalMax | user_service/src/schemas/auth.py:10-11 | An optional field passes when absent or within its maximum length |
| AuthSchemas.Report | user_service/src/routes/auth.py:14-19 | A field is reported exactly when its check failed |
| AuthSchemas.ValidateUserCreate | user_service/src/schemas/auth.py:6-27 | The model is built exactly when every field passes; it holds the validator's normalized e-mail and the other submitted values |
| AuthSchemas.ValidateLogin | user_service/src/schemas/auth.py:61-63 | The model is built exactly when the e-mail is present and accepted and a password is present; it holds the normalized e-mail |
| AuthSchemas.ValidateUserUpdate | user_service/src/schemas/auth.py:30-42 | Every field is optional; when all present fields pass, the model is the form with a present e-mail replaced by its normalized address |
| AuthSchemas.ValidatePasswordChange | user_service/src/schemas/auth.py:85-97 | Built exactly when both fields are present and the new password obeys the password rule |
| AuthSchemas.ValidateResetPassword | user_service/src/schemas/auth.py:104-116 | Built exactly when both fields are present and the new password obeys the password rule |
| AuthSchemas.ValidateRoleCreate | user_service/src/schemas/auth.py:119-128 | Built exactly when the name is present and valid; the name is lower-cased and permissions default to `{}` |
| AuthSchemas.ValidateRoleUpdate | user_service/src/schemas/auth.py:131-140 | Built exactly when a present name is valid; a present name is lower-cased |
| AuthService.AddUserKeeps | user_service/src/models/auth.py:11-13 | Adding a user with a fresh id and an unclashing e-mail and username keeps every constraint |
| AuthService.AddLinkKeeps | user_service/src/models/auth.py:101-102 | Adding an association row with resolving foreign keys and a new pair keeps every constraint |
| AuthService.AddRoleKeeps | user_service/src/models/auth.py:75-76 | Adding a role with a fresh id and a new name keeps every constraint |
| AuthService.AddTokenKeeps | user_service/src/models/auth.py:116-118 | Adding a refresh-token row whose hash is of a newly signed token keeps every constraint |
| AuthService.RevokeKeepsConsistent | user_service/src/models/auth.py:134-136 | Revoking a row keeps every constraint |
| AuthService.ReplaceUserKeeps | user_service/src/models/auth.py:11-13 | Replacing a user by one with the same key columns keeps every constraint |
| AuthService.RemoveLinkKeeps | user_service/src/models/auth.py:101-102 | Deleting an association row keeps every constraint |
| AuthService.FindUser | user_service/src/services/auth_service.py:183-185 | The user with that id, `None` exactly when no user has it |
| AuthService.FindRoleByName | user_service/src/services/auth_service.py:244 | The first role with that exact name, `None` exactly when there is none |
| AuthService.FindUserByEmail | user_service/src/services/auth_service.py:63 | The first user with that e-mail, `None` exactly when there is none |
| AuthService.RegisterConflict | user_service/src/services/auth_service.py:19-27 | No conflict exactly when no user shares the e-mail or the username; otherwise the first clashing user in table order decides, and the message is "Email already registered" exactly when that user's e-mail is the input |
| AuthService.RegisterConflictFirstMatch | user_service/src/services/auth_service.py:19-27 | With the username holder stored first, the report is "Username already taken" even though the e-mail is also taken |
| AuthService.NewUser | user_service/src/services/auth_service.py:30-38 | The new row has the submitted e-mail and username, checks the submitted password, and is active and unverified |
| AuthService.DefaultLinks | user_service/src/services/auth_service.py:41-45 | Exactly one association row to the role named "user" when that role exists, otherwise none |
| AuthService.Register | user_service/src/services/auth_service.py:15-56 | Registration keeps the constraints: unique keys, allocated ids, resolving links, signed hashes |
| AuthService.RegisterSpec | user_service/src/services/auth_service.py:15-56 | Refused, with nothing changed, exactly when the e-mail or username is taken; otherwise one user with the hashed password and its default role link are appended, and the stored user is reported with its roles |
| AuthService.NoLinksOfFreshUser | user_service/src/models/auth.py:101-102 | No association row refers to the id handed out next |
| AuthService.FindRoleOfMember | user_service/src/models/auth.py:75 | Looking up the id of a stored role yields that role |
| AuthService.NewUserRoles | user_service/src/services/auth_service.py:41-45 | A newly registered user's role names are `["user"]` when that role exists and `[]` otherwise |
| AuthService.NewRow | user_service/src/services/auth_service.py:84-90 | The stored row holds the token's SHA-256, is unrevoked and expires 7 days after issue |
| AuthService.IssueTokens | user_service/src/services/auth_service.py:72-93 | Both tokens are signed and exactly one refresh row is added; the other tables do not change |
| AuthService.Login | user_service/src/services/auth_service.py:59-104 | One message for an unknown e-mail and a wrong password alike; a separate one for a deactivated account; success issues the tokens with `expires_in` 1800 |
| AuthService.Refresh | user_service/src/services/auth_service.py:107-163 | Succeeds exactly when the token decodes, its row is stored under its subject and valid, and the user is active; success revokes that row and stores the successor, failure changes nothing |
| AuthService.OnlyRowFor | user_service/src/models/auth.py:118 | With unique hashes, a matching refresh row is the only one |
| AuthService.Logout | user_service/src/services/auth_service.py:166-180 | Always succeeds; revokes the row with the token's hash if there is one and changes nothing else |
| AuthService.UpdatePassword | user_service/src/services/auth_service.py:188-206 | "User not found" exactly for an unknown id, "Current password is incorrect" exactly for a wrong password; otherwise only that user's hash and `updated_at` change |
| AuthService.DefaultRoles | user_service/src/services/auth_service.py:212-240 | Three specs, named admin, user and analyst, in that order |
| AuthService.SeedOneKeeps | user_service/src/services/auth_service.py:243-251 | One seeding step keeps the constraints and the lookup of every name other than the spec's |
| AuthService.SeedKeeps | user_service/src/services/auth_service.py:242-252 | Seeding keeps every constraint and every existing role row unchanged |
| AuthService.SeedKeepsLookups | user_service/src/services/auth_service.py:242-252 | A name already present resolves to the same role after seeding |
| AuthService.SeedCovers | user_service/src/services/auth_service.py:242-252 | After seeding, every spec's name is present |
| AuthService.SeedAddsOnlySpecs | user_service/src/services/auth_service.py:242-252 | Seeding adds only roles named by a spec |
| AuthService.SeedPresent | user_service/src/services/auth_service.py:244-245 | Seeding when every name is present changes nothing |
| AuthService.SeedIdempotent | user_service/src/services/auth_service.py:209-257 | Running `create_default_roles` a second time, at any time, changes nothing |
| AuthService.SeedFromEmpty | user_service/src/services/auth_service.py:209-257 | On an empty roles table seeding stores exactly admin, user and analyst, in that order, each with its spec's description and permission map |
| AuthService.CreateRole | user_service/src/services/auth_service.py:264-287 | Refused, with nothing changed, exactly when a role has that exact name; otherwise one role is added with `{}` for absent permissions |
| AuthService.GetAllRoles | user_service/src/services/auth_service.py:290-293 | Every stored role and nothing else |
| AuthService.GetRoleById | user_service/src/services/auth_service.py:296-298 | The role with that id, `None` exactly when there is none |
| AuthService.AssignRole | user_service/src/services/auth_service.py:301-328 | The user is checked first, then the role, then the pair, each with its message and nothing changed; otherwise exactly one association row is added |
| AuthService.RemoveRole | user_service/src/services/auth_service.py:331-348 | "User does not have this role" exactly when the pair is absent; otherwise exactly that row is deleted and the pair is gone |
| AuthService.OnlyPair | user_service/src/models/auth.py:101-102 | With a composite key, removing a pair's row leaves no row of that pair |
| AuthService.RefreshSingleUse | user_service/src/services/auth_service.py:115-151 | After a refresh with a token succeeds, replaying that token fails at any later time |
| AuthService.RefreshStoresSuccessor | user_service/src/services/auth_service.py:140-151 | A successful refresh stores the successor's row last, for the token's user, and signs the successor for that user |
| AuthService.RotatedTokenRefreshes | user_service/src/services/auth_service.py:140-151 | The successor token refreshes while its row and its signature are current |
| AuthService.LogoutThenRefreshFails | user_service/src/services/auth_service.py:166-180 | After logout with a token, refreshing with it fails |
| AuthService.AssignGrantsRole | user_service/src/services/auth_service.py:320-322 | After a successful assignment the user has the role, by name |
| AuthService.LoginClaimsRoles | user_service/src/services/auth_service.py:72-80 | The access token a login returns carries the user's role names at that moment |
| AuthService.AuthStore.constructor | user_service/src/main.py:38 | An empty database |
| AuthService.AuthStore.RegisterUser | user_service/src/services/auth_service.py:15-56 | Updates the tables in place to exactly the state `Register` describes and returns its result |
| AuthService.AuthStore.AuthenticateUser | user_service/src/services/auth_service.py:59-104 | Updates the tables in place to exactly the state `Login` describes and returns its result |
| AuthService.AuthStore.StoreTokens | user_service/src/services/auth_service.py:72-93 | Records the signed pair and adds the refresh row, as `IssueTokens` describes |
| AuthService.AuthStore.RefreshAccessToken | user_service/src/services/auth_service.py:107-163 | Updates the tables in place to exactly the state `Refresh` describes and returns its result |
| AuthService.AuthStore.LogoutUser | user_service/src/services/auth_service.py:166-180 | Updates the tables in place to exactly the state `Logout` describes |
| AuthService.AuthStore.GetUserById | user_service/src/services/auth_service.py:183-185 | The stored user with that id, `None` exactly when there is none |
| AuthService.AuthStore.UpdateUserPassword | user_service/src/services/auth_service.py:188-206 | Updates the tables in place to exactly the state `UpdatePassword` describes |
| AuthService.AuthStore.CreateDefaultRoles | user_service/src/services/auth_service.py:209-257 | Leaves exactly the state `Seed` describes for the default roles, and reports success |
| AuthService.AuthStore.SeedRoles | user_service/src/services/auth_service.py:242-252 | The seeding loop leaves exactly the state `Seed` describes |
| AuthService.AuthStore.SeedRole | user_service/src/services/auth_service.py:243-251 | One iteration keeps the constraints and leaves exactly the state `SeedOne` describes |
| AuthService.AuthStore.CreateRoleRow | user_service/src/services/auth_service.py:264-287 | Updates the tables in place to exactly the state `CreateRole` describes |
| AuthService.AuthStore.AssignRoleToUser | user_service/src/services/auth_service.py:301-328 | Updates the tables in place to exactly the state `AssignRole` describes |
| AuthService.AuthStore.RemoveRoleFromUser | user_service/src/services/auth_service.py:331-348 | Updates the tables in place to exactly the state `RemoveRole` describes |
| AuthRoutes.IsAdminIff | user_service/src/routes/auth.py:180-182 | The gate passes exactly when the claims list "admin"; claims without a roles list never pass |
| AuthRoutes.Intake | user_service/src/routes/auth.py:27-32 | A missing body is 400 "No data provided", a failing body 400 "Validation failed", and only a valid body proceeds |
| AuthRoutes.Answer | user_service/src/routes/auth.py:36-42 | The success status exactly for a service success, the error status with the service's message otherwise |
| AuthRoutes.RegisterRoute | user_service/src/routes/auth.py:22-45 | 201 or 400; a missing or invalid body changes nothing; a valid body answers as `Register` does |
| AuthRoutes.LoginRoute | user_service/src/routes/auth.py:48-74 | 400 exactly for a missing or invalid body; for a valid body the reply is the login's result as 200 on success or 401 with the service's message on every failure, with the login's state |
| AuthRoutes.RefreshRoute | user_service/src/routes/auth.py:77-102 | 400 exactly when the `refresh_token` key is missing or not a string; otherwise 200 exactly when `Refresh` accepts, 401 with nothing changed when not |
| AuthRoutes.LogoutRoute | user_service/src/routes/auth.py:105-122 | 400 for a missing key; 400 "Logout failed" with nothing changed for a value that is not a string, since `logout_user` catches the hashing error; otherwise 200 with the logout's state |
| AuthRoutes.MeRoute | user_service/src/routes/auth.py:125-139 | 404 exactly when the caller's id names no user; otherwise 200 with exactly `to_dict(include_roles=True)` of the caller's row |
| AuthRoutes.ChangePasswordRoute | user_service/src/routes/auth.py:142-169 | 200 exactly when the body is valid and `UpdatePassword` succeeds, with its state; 400 changes nothing |
| AuthRoutes.ListRolesRoute | user_service/src/routes/auth.py:173-189 | 403 exactly for non-admin claims; otherwise 200 with every role |
| AuthRoutes.CreateRoleRoute | user_service/src/routes/auth.py:192-227 | 403 exactly for non-admin claims, checked before the body; 201 exactly when the body is valid and the name is free |
| AuthRoutes.AssignRoleRoute | user_service/src/routes/auth.py:230-250 | Non-admin claims get 403 with nothing changed; otherwise the answer and state of `AssignRole` |
| AuthRoutes.RemoveRoleRoute | user_service/src/routes/auth.py:253-273 | Non-admin claims get 403 with nothing changed; otherwise the answer and state of `RemoveRole` |
| AuthRoutes.AdminGate | user_service/src/routes/auth.py:173-273 | All four role routes answer 403 exactly for non-admin claims, and then change nothing |
| AuthRoutes.GateTrustsClaims | user_service/src/routes/auth.py:192-227 | An admin's access token keeps passing the gate after the admin role is taken away, until it expires |
| LlmModels.MessagesOf | llm_service/src/models/llm.py:19 | Exactly the messages of the conversation, none invented |
| LlmModels.ConversationToDict | llm_service/src/models/llm.py:21-36 | `message_count` is the number of the conversation's messages; the messages are included exactly when asked, and are then exactly that conversation's messages; the other columns are copied from the row |
| LlmModels.GetRecentMessages | llm_service/src/models/llm.py:38-40 | At most `limit` messages, all of the conversation, newest first, and none left out is newer than one returned |
| LlmModels.DocumentProcessing.constructor | llm_service/src/models/llm.py:112-130 | A new record is 'pending' with no outcome columns set |
| LlmModels.DocumentProcessing.MarkCompleted | llm_service/src/models/llm.py:145-150 | Status 'completed' with output, processing time and completion time set; the error message is left as it was |
| LlmModels.DocumentProcessing.MarkFailed | llm_service/src/models/llm.py:152-156 | Status 'failed' with error and completion time set; the output and processing time are left as they were |
| LlmService.Bump | llm_service/src/services/llm_service.py:462-471 | One iteration of a bucket loop adds at most one bucket |
| LlmService.Lookup | llm_service/src/services/llm_service.py:463 | The bucket found for a key carries that key |
| LlmService.LookupKeys | llm_service/src/services/llm_service.py:463 | `None` exactly when the key is not among the buckets' keys; a bucket found is one of the buckets |
| LlmService.BumpTotals | llm_service/src/services/llm_service.py:462-471 | One iteration adds one request and the log's tokens to the bucket totals |
| LlmService.BumpLookup | llm_service/src/services/llm_service.py:462-471 | The key's bucket is created with one request or gains one request and the log's tokens |
| LlmService.BumpLookupOther | llm_service/src/services/llm_service.py:462-471 | Every other key's bucket is unchanged by a bump |
| LlmService.BumpDistinct | llm_service/src/services/llm_service.py:462-471 | One iteration adds the key to the keys and never makes two buckets for one key |
| LlmService.AggregateLookup | llm_service/src/services/llm_service.py:461-484 | After the loop, the bucket of a key some log falls under holds the number and the tokens of those logs |
| LlmService.AggregateLookupNone | llm_service/src/services/llm_service.py:461-484 | After the loop, a key no log falls under has no bucket |
| LlmService.NoLogsNoTokens | llm_service/src/services/llm_service.py:461-484 | A key no log falls under has no tokens |
| LlmService.AggregateDistinct | llm_service/src/services/llm_service.py:461-484 | After the loop, there is exactly one bucket for each key occurring in the logs |
| LlmService.AggregateTotals | llm_service/src/services/llm_service.py:455-484 | The buckets' requests add up to the number of logs and their tokens to the token total |
| LlmService.StatsAgree | llm_service/src/services/llm_service.py:445-494 | `total_requests` is the window's size and equals the requests of the model buckets and of the operation buckets; token totals likewise; an empty window reports zeros and no buckets |
| LlmService.ToProvider | llm_service/src/services/llm_service.py:172-177 | user, assistant and system become Human, AI and System messages with the same content; any other role has none |
| LlmService.ProviderMessages | llm_service/src/services/llm_service.py:170-177 | No more provider messages than stored ones |
| LlmService.ProviderMessagesMapped | llm_service/src/services/llm_service.py:170-177 | When every role is known, exactly one provider message per stored message, in order; when none is, none |
| LlmService.BuildProviderMessages | llm_service/src/services/llm_service.py:166-180 | The loop produces the chronological history's provider messages, then the current message as a Human message, last |
| LlmService.PendingMessageTwice | llm_service/src/services/llm_service.py:158-180 | When the fetched history already holds the pending user message, the provider receives it twice as the last two messages |
| LlmService.OwnedBy | llm_service/src/services/llm_service.py:102 | Exactly the user's conversations |
| LlmService.RecentFirst | llm_service/src/services/llm_service.py:100-104 | At most `limit` of the user's conversations, by `updated_at` descending, and none left out was updated later than one returned |
| LlmService.Summaries | llm_service/src/services/llm_service.py:106 | `to_dict()` of each conversation, in order |
| LlmService.LlmStore.constructor | llm_service/src/main.py:37 | Empty tables |
| LlmService.LlmStore.GetUserConversations | llm_service/src/services/llm_service.py:100-106 | At most `limit` dictionaries, all of the user's stored conversations, ordered by `updated_at` descending; they are the `to_dict()` of the `RecentFirst` rows |
| LlmService.RemoveConversationKeeps | llm_service/src/services/llm_service.py:129-130 | Deleting one conversation keeps the ids unique and leaves no conversation with the deleted id |
| LlmService.LlmStore.DeleteConversation | llm_service/src/services/llm_service.py:119-136 | "Conversation not found" with nothing changed unless a conversation has both that id and that owner; otherwise exactly that conversation and its messages go |
| LlmService.LlmStore.LogUsage | llm_service/src/services/llm_service.py:57-76 | Appends one log whose `total_tokens` is prompt plus completion tokens |
| LlmService.LlmStore.Window | llm_service/src/services/llm_service.py:438-443 | Exactly the user's logs from `days` days before now on |
| LlmService.LlmStore.GetUserUsageStats | llm_service/src/services/llm_service.py:434-494 | The two loops leave the statistics `StatsOf` describes, whose totals agree with the buckets |
| TemplateService.UpdatesKeepKeys | llm_service/src/services/llm_service.py:552-554 | The update loop never changes the id or the timestamps |
| TemplateService.UpdatesKeepText | llm_service/src/services/llm_service.py:552-554 | The name, description and template text stay unless an effective update names them |
| TemplateService.UpdatesKeepSettings | llm_service/src/services/llm_service.py:552-554 | The variables, model configuration and creator stay unless an effective update names them |
| TemplateService.EffectiveUpdates | llm_service/src/services/llm_service.py:553 | The updates with a known key and a non-`None` value |
| TemplateService.OnlyEffectiveUpdatesCount | llm_service/src/services/llm_service.py:552-554 | Unknown keys and `None` values change nothing: applying only the effective updates gives the same template |
| TemplateService.LastNameWins | llm_service/src/services/llm_service.py:552-554 | The last name given wins |
| TemplateService.ApplyUpdatesAppend | llm_service/src/services/llm_service.py:552-554 | Two batches of keyword arguments applied in turn act as one batch |
| TemplateService.TemplateStore.constructor | llm_service/src/main.py:37 | An empty table |
| TemplateService.TemplateStore.GetTemplateById | llm_service/src/services/llm_service.py:538-542 | The stored template with that id, `None` exactly when there is none |
| TemplateService.TemplateStore.CreateTemplate | llm_service/src/services/llm_service.py:501-530 | "Template with this name already exists" exactly when the name is taken; a missing creator fails the commit; otherwise exactly one template is added, with `{}` for absent JSON columns |
| TemplateService.ReplaceKeepsValid | llm_service/src/services/llm_service.py:556-557 | Replacing a template by one with the same id and a name no other template holds keeps ids and names unique |
| TemplateService.TemplateStore.UpdateTemplate | llm_service/src/services/llm_service.py:544-567 | "Template not found" exactly for an unknown id; a new name that another template holds fails with nothing changed; otherwise the effective updates are applied and `updated_at` stamped |
| TemplateService.TemplateStore.ApplyUpdatesInOrder | llm_service/src/services/llm_service.py:552-554 | The loop leaves the template `ApplyUpdates` describes |
| TemplateService.TemplateStore.DeleteTemplate | llm_service/src/services/llm_service.py:569-584 | "Template not found" exactly for an unknown id, with nothing changed; otherwise exactly that template is removed |

## Left out

- Rows are values in sequences, not ORM objects. There is no identity
  map, no aliasing and no lazy loading. A relationship's rows appear in
  table order; `Conversation.messages` is ordered by `created_at`, which is
  table order when messages are stored in time order.
- The user id is taken as known when the default role link is created at
  `user_service/src/services/auth_service.py:43`. The column default of
  `user_service/src/models/auth.py:11` fills it only at flush, and the model
  relies on autoflush to make it available.
- bcrypt, SHA-256 and JWT signing are symbolic. There is no collision, no
  secret key, and no decode error beyond "not signed" and "expired".
- Crypto.CheckHashedPassword: bcrypt reads at most 72 bytes of the UTF-8
  password, and the schemas admit passwords of up to 128 characters. With
  bcrypt before 5.0, a password sharing the first 72 bytes also checks; with
  bcrypt 5.0, hashing a longer password raises, and registration or a
  password change then fails. The symbolic hash models neither, so its
  "no other password checks" holds only for passwords of at most 72 bytes.
- AuthModels.SetPassword: the same 72-byte limit applies. "Exactly the new
  password checks" and the success of `set_password` hold as stated only for
  passwords of at most 72 bytes.
- What `EmailStr` accepts and how it normalizes is the parameter `emailStr`. Character classes are ASCII,
  so Unicode `isupper`/`isalnum`/`lower` are not modelled.
- Ids are naturals from one allocator, not random UUID strings.
- Time is whole seconds.
- Exceptions and rollbacks are modelled only where the source reaches them
  by a constraint the model knows:
  - a template created without a creator;
  - an update that gives a template another template's name;
  - a non-string refresh token at logout, which `logout_user` catches and
    reports as a failure.

  Every other `except Exception` branch and the 500 responses are left out.
- The exception text after "Template creation failed: ", "Template update
  failed: ", "Token refresh failed: " and "Logout failed: " is not modelled.
- Success payloads of the routes are reduced to status, error message and
  state. Validation `details` lists are reduced to "some field failed".
- `get_all_templates` returns every row's `to_dict()` and is not modelled
  separately. `PromptTemplate.to_dict` and `render_template` are not
  modelled.
- `update_template` models only keyword arguments naming the six content
  columns, or no attribute at all. The `hasattr` test would also accept
  `id`, `created_at`, `updated_at` and method names; setting those is not
  modelled.
- JSON columns are maps from key to the value's JSON text, and nothing
  looks inside them except the role permission maps.
- Floating point is not modelled:
  - `cost` and `_calculate_cost`;
  - `avg_response_time`, `response_time` and `round`.

  `processing_time` is kept but not computed.
- Provider calls are not modelled: `llm.invoke`, `chat_stream`,
  `summarize_document`, `generate_content` and `_get_llm_client`. The rest
  of `chat` is modelled only for the message list.
- `create_conversation` and `get_conversation` are not modelled.
- The LLM service's routes are not modelled.
- The usage logs of a deleted conversation keep their `conversation_id`.
  The foreign key's effect at commit is not modelled.
- `main.py` wiring is not modelled: health checks, JWT error handlers and
  CORS.
- `limit` and `days` are taken as given. A negative `limit` is not
  modelled (`limit: nat`).
- AuthService.Logout: does not check that the token belongs to the caller.
  The route logs out any refresh token it is given, as the source does.
- AuthService.UpdatePassword: does not revoke the user's refresh tokens, as
  the source does not.
