# Sign-in core of goose, modelled in Dafny

This project models the security-relevant core of a web application's sign-in flow, on both sides.

- **Client session lifecycle.** The browser keeps a session token under `auth_token` and a cached profile under `auth_user` in `localStorage`. An `AuthProvider` holds the in-memory `user` and `isLoading` state. It has three operations: startup validation (`checkAuth`), `loginWithGoogle` and `logout`.
- **API client.** An `ApiClient` reads and writes the token in the store. Its transport interceptor re-reads the token on every call and attaches `Authorization: Bearer <token>`.
- **Server auth gate.** A Connect interceptor lets listed public procedures through. For every other call it demands a bearer header and a valid JWT, then puts the user id into the request context.
- **Token service.** Checks on a verified Google ID token (issuer, audience, email, subject), the default JWT lifetime, and the claims of the application's JWT.
- **Auth handlers.** `Login` finds or creates the user by Google id, maps the error cases to Connect codes and issues a JWT. `GetCurrentUser` looks up the authenticated caller. `Logout` always succeeds.
- **API-key helpers and handlers.** Key format checks, the stored prefix and suffix, the masked key, and the create, list, delete and rename handlers over a key table.
- **Dashboard helpers.** Avatar initials and the display name.

Module per source file: `ApiKey`, `ApiKeyServer`, `Auth`, `AuthInterceptor`, `AuthServer`, `ApiClient`, `AuthContext`, `DashboardLayout`. `Base` holds `Option`, `Result` and string primitives. `Connect` holds status codes. `Decimal` holds the bigint-to-string conversion. `SessionFlow` relates client and server.

Where the source changes state, the model does too:
- the store, the client, the outgoing request and the provider are classes whose methods change their fields;
- the server's user table is a `map` field of `AuthServer.Server`;
- the key table is a `seq` field of `ApiKeyServer.KeyServer`;
- `NewInterceptor` and `ListAPIKeys` keep the source's loops.

The rest is functions and lemmas.

Behaviour of the code as written that the model keeps:

- **`ExtractParts` shadows its constant.** Its named result `prefix` hides the package constant `"gsk_"`, so inside the function `prefix` is `""`. Every stored key therefore has an empty `KeyPrefix`, and the masked key reads `****...****` followed by the key's last four characters (`ApiKey.ExtractPartsOfValidKey`, `ApiKeyServer.MaskOfGeneratedKey`). `Validate` does use `"gsk_"`.
- **A stored token does not imply a signed-in user.** When `getCurrentUser` succeeds at startup without a `user`, the token stays and `user` stays null (`SessionFlow.StartupKeepsTokenWithoutUser`). The design says a user is present exactly when a validated token is; the model follows the code. What it proves instead is `AuthContext.AuthProvider.Consistent`: a signed-in user always has a truthy token and a matching cached profile.
- **Login updates only the name.** It overwrites the stored name with the token's name and keeps the stored email, even if the token carries a different one.
- **Deleting a key the caller does not own succeeds.** The delete query only executes, so the handler's not-found branch is never reached and the answer is Success = true with the table unchanged (`ApiKeyServer.KeyServer.DeleteAPIKey`; see Findings).
- **The request id comes first.** `UpdateAPIKey` checks the id before the name.

Foreign calls are inputs:
- `idtoken.Validate`: its verdict, a payload or `None`;
- `ValidateJWT`: a function parameter;
- JWT signing: a function parameter returning `Option`;
- SHA-256 hashing: a function parameter;
- the random key material and the UUID: `generated`;
- `JSON.stringify`: a function constant of the provider;
- database failures other than "no rows": boolean inputs;
- the clock: `now`, in nanoseconds;
- each backend reply on the client: a `Reply` (a response or a rejection with its code).

## Model

| member | source | states |
|---|---|---|
| `ApiKey.MakeKey` | internal/apikey/apikey.go:30-33 | a generated key is "gsk_" followed by the encoded random bytes, and trimming the prefix gives them back |
| `ApiKey.ExtractParts` | internal/apikey/apikey.go:43-53 | with the shadowed prefix, the first part is always "", the suffix is "" for keys under 4 characters and the last 4 characters otherwise |
| `ApiKey.ExtractPartsSuffix` | internal/apikey/apikey.go:48-52 | the suffix has length 0 or 4 and is a suffix of the key |
| `ApiKey.Validate` | internal/apikey/apikey.go:56-66 | true exactly when the key starts with "gsk_" and has at least 40 characters after it; false for every key without the prefix |
| `ApiKey.GeneratedKeyValidates` | internal/apikey/apikey.go:24-33 | 32 random bytes encode to 43 characters, and "gsk_" plus any such text passes Validate |
| `ApiKey.ExtractPartsOfValidKey` | internal/apikey/apikey.go:43-53 | for every valid key the stored prefix is "" (never "gsk_") and the suffix is its last four characters |
| `Auth.NewService` | internal/auth/auth.go:32-37 | a zero expiration becomes 24 hours, any other configuration is kept, and the result's expiration is never zero |
| `Auth.StringClaimOf` | internal/auth/auth.go:71-74 | a claim read as string is its text, or "" when missing or of another type |
| `Auth.BoolClaimOf` | internal/auth/auth.go:75 | the email_verified claim reads true only when it is present and the boolean true |
| `Auth.ValidateGoogleIDToken` | internal/auth/auth.go:49-88 | a library failure fails; success exactly when the issuer is one of Google's two, the audience is the client id, and email and sub are non-empty; the issuer check comes first; the info fields come from email/sub/name/picture/email_verified |
| `Auth.GenerateJWTClaims` | internal/auth/auth.go:98-108 | the claims carry the user id and email, issued-at and not-before are now, and expiry is issued-at plus the configured expiration |
| `Auth.DefaultTokenLifetime` | internal/auth/auth.go:32-37 | a service built from a configuration without expiration issues tokens that expire 86400 seconds after now |
| `AuthInterceptor.WithUserID` | internal/auth/interceptor.go:60 | reading the user id back from the new context gives the stored id and true |
| `AuthInterceptor.GetUserIDFromContext` | internal/auth/interceptor.go:77-80 | the stored id and true, or 0 and false when the context has none |
| `AuthInterceptor.NewInterceptor` | internal/auth/interceptor.go:17-26 | the map's keys are exactly the listed procedures, all mapped to true, so a procedure is public exactly when it is listed |
| `AuthInterceptor.WrapUnary` | internal/auth/interceptor.go:33-64 | public procedures go to next with the context unchanged; otherwise an empty header is MissingToken, a header without "Bearer " is InvalidToken, the token after one "Bearer " goes to ValidateJWT, a rejection is InvalidToken, and success calls next with the claims' user id; every rejection is Unauthenticated |
| `AuthInterceptor.PassedCallsAreAuthenticated` | internal/auth/interceptor.go:54-62 | a protected call that reaches next had a bearer header whose token validated, and its context yields that token's user id |
| `AuthServer.ToMessage` | internal/auth/server.go:95-100 | the user message copies id, email and name, and sends a null Google id as "" |
| `AuthServer.Server.IssueToken` | internal/auth/server.go:85-101 | a signing failure is Internal; success returns the signature of the user's claims and the stored user's fields |
| `AuthServer.Server.Login` | internal/auth/server.go:30-102 | validation failure is Unauthenticated, an unverified email PermissionDenied, a lookup error Internal, all with the table unchanged; an unknown Google id creates exactly one user with the token's email, Google id and name; a known one gets only its name overwritten (not on update failure) and is re-read; success returns the JWT and a stored user; Google ids stay unique |
| `AuthServer.Server.GetCurrentUser` | internal/auth/server.go:105-128 | no user id in the context is Unauthenticated, a query error Internal, an unknown id NotFound; otherwise that user's fields |
| `AuthServer.Server.Logout` | internal/auth/server.go:131-142 | the response always has Success = true |
| `ApiKeyServer.MaskedKey` | internal/apikey/server.go:96 | the masked key is the prefix, then "****...****", then the suffix |
| `ApiKeyServer.ToApiKeyMsg` | internal/apikey/server.go:96-109 | a listed key copies id, name and creation time, masks the key from the stored prefix and suffix, and has LastUsedAt exactly when the column is not null |
| `ApiKeyServer.RowsOf` | internal/apikey/server.go:86 | the listing holds exactly the caller's rows |
| `ApiKeyServer.RowsOfConcat` | internal/apikey/server.go:86 | the listing of a concatenated table is the concatenation of the listings, so table order is kept |
| `ApiKeyServer.CreatedKeyListedLast` | internal/apikey/server.go:55-63 | in the model's table order, a newly inserted key is listed after all of its owner's earlier keys (the query's own ordering is not part of this model) |
| `ApiKeyServer.MaskOfGeneratedKey` | internal/apikey/server.go:50-53 | the masked form of a generated key is "****...****" plus its last four characters and never begins with "gsk_" |
| `ApiKeyServer.RemoveRow` | internal/apikey/server.go:130-133 | deleting the row at a position of a table keyed by id removes exactly the rows with that id, one row in all, and the id stays unique |
| `ApiKeyServer.KeyServer.CreateAPIKey` | internal/apikey/server.go:31-75 | no user is Unauthenticated, an empty name InvalidArgument, a generator or insert failure Internal, in that order and storing nothing; success appends one row with the caller's id, the name, the key's hash and ExtractParts of the key, and returns the full key |
| `ApiKeyServer.KeyServer.ListAPIKeys` | internal/apikey/server.go:78-115 | no user is Unauthenticated, a query error Internal; otherwise one message per row of the caller, in row order |
| `ApiKeyServer.KeyServer.DeleteAPIKey` | internal/apikey/server.go:118-145 | as written: no user is Unauthenticated, an empty id InvalidArgument, a query error Internal; otherwise Success = true, whether or not the caller owns a key with that id; an owned key is removed with the other rows kept in order, an unowned id leaves the table as it was; rows of other users are never touched |
| `ApiKeyServer.KeyServer.DeleteAPIKeyReportingMissing` | internal/apikey/server.go:134-137 | as the not-found branch intends: the same errors in the same order, NotFound with nothing deleted when the caller owns no key with that id, otherwise Success = true with exactly that row removed and the rest kept in order |
| `ApiKeyServer.DeleteOfOthersKeySucceeds` | internal/apikey/server.go:130-137 | a user deleting another user's key is told Success = true and the key stays stored |
| `ApiKeyServer.DeleteOfOthersKeyNotFound` | internal/apikey/server.go:134-137 | with the intended behaviour the same request is answered NotFound and the key stays stored |
| `ApiKeyServer.KeyServer.UpdateAPIKey` | internal/apikey/server.go:148-194 | the id is checked before the name, then query errors and no-rows (NotFound); success renames exactly the caller's row with that id and returns its masked message |
| `ApiClient.Client.GetToken` | frontend/src/lib/apiClient.ts:42-44 | the token is whatever the store holds under auth_token at the time of the call |
| `ApiClient.Client.SetToken` | frontend/src/lib/apiClient.ts:49-51 | afterwards GetToken returns the token; only auth_token changes |
| `ApiClient.Client.ClearToken` | frontend/src/lib/apiClient.ts:56-58 | afterwards GetToken returns null; only auth_token changes |
| `ApiClient.Client.Intercept` | frontend/src/lib/apiClient.ts:22-28 | the store is re-read: a truthy token sets Authorization to "Bearer " plus the token, an absent or empty one leaves the headers as they were; the same request goes on |
| `Decimal.DecimalString` | frontend/src/contexts/AuthContext.tsx:25 | the id string is a minus sign exactly for negative ids, followed by decimal digits |
| `Decimal.DecimalRoundTrip` | frontend/src/contexts/AuthContext.tsx:25 | parsing the id string gives the id back |
| `Decimal.DecimalInjective` | frontend/src/contexts/AuthContext.tsx:25 | distinct ids give distinct strings |
| `AuthContext.ConvertApiUser` | frontend/src/contexts/AuthContext.tsx:23-30 | email, Google id and name are copied unchanged and the id is its decimal string |
| `AuthContext.ConvertApiUserInjective` | frontend/src/contexts/AuthContext.tsx:23-30 | the conversion loses nothing: equal results come from equal API users |
| `AuthContext.AuthProvider.constructor` | frontend/src/contexts/AuthContext.tsx:33-34 | the provider starts with no user and loading |
| `AuthContext.AuthProvider.IsAuthenticated` | frontend/src/contexts/AuthContext.tsx:109 | authenticated exactly when user is non-null |
| `AuthContext.AuthProvider.CheckAuth` | frontend/src/contexts/AuthContext.tsx:38-61 | always ends not loading; calls the backend exactly when the token is truthy; no token changes nothing; a user reply sets user to its conversion and caches it, keeping the token; a reply without user changes nothing; a failure removes both keys; from a signed-out start the result is consistent |
| `AuthContext.AuthProvider.LoginWithGoogle` | frontend/src/contexts/AuthContext.tsx:66-88 | a backend failure is rethrown and a reply without user or jwt throws InvalidLoginResponse, both leaving user and store unchanged; otherwise the token becomes exactly the jwt, user is set and cached; consistency is kept |
| `AuthContext.AuthProvider.Logout` | frontend/src/contexts/AuthContext.tsx:90-103 | whatever the backend answered, nothing is thrown, user is null and both keys are removed |
| `DashboardLayout.Trim` | frontend/src/layouts/DashboardLayout.tsx:62 | the trimmed name is empty exactly when the name is all whitespace, and otherwise starts and ends with non-whitespace |
| `DashboardLayout.TrimShape` | frontend/src/layouts/DashboardLayout.tsx:62 | trimming removes whitespace at both ends and nothing else |
| `DashboardLayout.SplitWs` | frontend/src/layouts/DashboardLayout.tsx:64 | splitting on whitespace runs gives at least one piece |
| `DashboardLayout.SplitPartsNonEmpty` | frontend/src/layouts/DashboardLayout.tsx:64-68 | a trimmed non-empty name splits into non-empty words, so the first letters exist |
| `DashboardLayout.SplitWithoutSpace` | frontend/src/layouts/DashboardLayout.tsx:68 | a name without whitespace is one piece |
| `DashboardLayout.SplitFirstPart` | frontend/src/layouts/DashboardLayout.tsx:64-66 | the first piece runs up to the first whitespace |
| `DashboardLayout.SplitLastPart` | frontend/src/layouts/DashboardLayout.tsx:64-66 | with whitespace present there are at least two pieces and the last is the text after the last whitespace |
| `DashboardLayout.NameInitials` | frontend/src/layouts/DashboardLayout.tsx:64-68 | the initials of a trimmed, non-empty name have length 1 or 2 and begin with its upper-cased first character |
| `DashboardLayout.GetInitials` | frontend/src/layouts/DashboardLayout.tsx:61-72 | initials have length 1 or 2; a name that is not blank gives initials starting with the upper-cased first character of the trimmed name; a blank or absent name with an email gives its upper-cased first character, with neither it is "U" |
| `DashboardLayout.InitialsOfSeveralWords` | frontend/src/layouts/DashboardLayout.tsx:65-66 | a name of several words gives the upper-cased first character of the trimmed name and the one after its last whitespace |
| `DashboardLayout.InitialsOfOneWord` | frontend/src/layouts/DashboardLayout.tsx:68 | a one-word name gives its upper-cased first character |
| `DashboardLayout.BeforeAt` | frontend/src/layouts/DashboardLayout.tsx:75 | the first piece of email.split("@") is the prefix of the email before its first "@", or all of it |
| `DashboardLayout.DisplayName` | frontend/src/layouts/DashboardLayout.tsx:75 | never empty: the name if non-empty, else the email's text before "@" if non-empty, else "User" (also with no user) |
| `DashboardLayout.BlankNameShownButNotInitialled` | frontend/src/layouts/DashboardLayout.tsx:62-75 | a whitespace-only name is kept as display name while the initials come from the email, or are "U" |
| `SessionFlow.BearerTokenReachesValidator` | internal/auth/interceptor.go:42-62 | the header the client sets for a truthy token brings exactly that token to ValidateJWT on a protected procedure |
| `SessionFlow.NoTokenNoAccess` | internal/auth/interceptor.go:42-45 | a protected call sent without a token is rejected with MissingToken before any handler runs |
| `SessionFlow.LoginThenCall` | frontend/src/contexts/AuthContext.tsx:77-78 | after a successful login the next call carries "Bearer " plus the issued jwt |
| `SessionFlow.LogoutThenCall` | frontend/src/contexts/AuthContext.tsx:90-103 | after logout the next call carries no new header, whatever the backend answered |
| `SessionFlow.StartupKeepsTokenWithoutUser` | frontend/src/contexts/AuthContext.tsx:47-52 | a token accepted by getCurrentUser without a user stays stored while user stays null and loading ends |

## Left out

- `frontend/src/lib/googleOAuth.ts` (script injection, the Google widget and its callbacks) is DOM and asynchronous browser work; it is not part of this model.
- `cmd/server/main.go`, `db/db.go`, `frontend/static.go`, `frontend/build.mjs`, `pkg/log/log.go`: serving, migrations, bundling and logging are outside the core. The greeter service and the UI pages are not modelled.
- The sqlc queries and the database schema are not part of this model. Tables are maps and sequences:
  - a users row's id is below `nextId`, the id the next insert receives;
  - Google ids are unique, which Login itself preserves;
  - key ids are unique like a primary key, so an insert with an existing id fails;
  - the delete and rename queries match on id and user id; the rename query returns the row and so reports "no rows" when nothing matches, while the delete query only executes and reports no error then (see Findings);
  - the listing returns rows in table order, whatever the SQL ordering is.
- `ValidateJWT`, `idtoken.Validate`, HS256 signing, SHA-256, base64, `crypto/rand`, UUIDs and `JSON.stringify` are foreign and enter as inputs; `GenerateRandomSecret`/`GenerateRandomSecretString` are not modelled because they are only a random source.
- Logging (`slog`, `console.error`) is left out; it has no effect on results.
- `Auth.GenerateJWTClaims`: the library's truncation of NumericDate to whole seconds is not modelled; times are kept in nanoseconds.
- Integers are unbounded; the source's `int64` ids and durations are not bounded, since no modelled operation does arithmetic that could overflow except expiry, where `now + 24h` stays far inside the range for real clocks.
- Upper-casing and whitespace are ASCII only; JavaScript's Unicode case mapping and Unicode whitespace are not modelled. Strings are sequences of characters, so Go byte lengths equal character counts here.
- The Connect transport, React rendering, hooks and asynchrony are left out. Each handler is one sequential step. The streaming wrappers of the interceptor pass calls through and are not modelled.
- Header names are exact map keys with one value each; Go's `Header.Get` and the browser's `Headers.set` match names case-insensitively and allow several values. Both sides use the exact name `Authorization`, so nothing modelled depends on it.
- A `Reply` that the client receives is not tied to the server model's answer. `SessionFlow` relates the two only through the bearer header.

## Findings

| source | as written | input that shows it | evidently intended | confidence | as-written member | corrected member |
|---|---|---|---|---|---|---|
| internal/apikey/server.go:130-137 | the delete query returns only an error, so it runs as an exec, which never yields `sql.ErrNoRows`; the NotFound branch cannot be reached and a delete of a key the caller does not own answers Success = true | user 1 deletes `key-1`, which belongs to user 2 | NotFound ("API key not found") when the caller owns no key with that id | not executed; the query definition is not part of this model, the exec form is read off its single error result | `ApiKeyServer.KeyServer.DeleteAPIKey`, `ApiKeyServer.DeleteOfOthersKeySucceeds` | `ApiKeyServer.KeyServer.DeleteAPIKeyReportingMissing`, `ApiKeyServer.DeleteOfOthersKeyNotFound` |
