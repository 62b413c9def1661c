# Task manager: session handling, task rules and API policies in Dafny

This project models the core of a small task-manager application. The application has a React front end and a Go API. The model proves properties of that core. It covers two halves.

**Front end.**
- The credential store: `access_token` and `refresh_token` in `localStorage`.
- The axios interceptors that attach `Authorization: Bearer` (section 2.1 of RFC 6750), and on a 401 refresh the pair through one shared `refreshPromise` slot and replay the request once.
- The Redux auth and task slices.
- The date and payload conversions of the task form.
- The password checks of the registration page.

JavaScript runs on one thread, so the interceptors are modelled as a sequential event system. A request is sent, a response fails or succeeds, and the refresh settles. The state is the store, the slot and each request's `_retry` flag and phase.

**API (Go).**
- The task enumerations and their binding tags.
- The task service: creation defaults and the partial-update merge.
- The repository: the `tasks` table as a map from id to row, the list queries with numbered placeholders, and id/user_id scoping.
- The HTTP status mapping of the task handlers.
- Refresh-token rotation in the key/value store.
- Token validation.
- Configuration fallbacks and 64-bit duration arithmetic.
- The CORS origin scan of the WHATWG Fetch Standard's CORS protocol (section 3.2).

Signed tokens (RFC 7519, HS256 per section 3.2 of RFC 7518) and bcrypt hashes are symbolic.
- A token is the claims it carries, plus the algorithm and key that signed it.
- A hash records its password.
- Time is in whole seconds. This is exact for expiry, because `NumericDate` truncates to seconds and a token is valid while now < exp.

Code that changes state in place is modelled as classes with `modifies` clauses, proved against pure functions:
- `LocalStorage`, the api.ts `Client`, both Redux slices, the form and page state, the repository, the services and the handlers.

Loops are methods with invariants: `findIndex`, the repository row loop, the origin scan and the `parseCORSOrigins` loop.

One file per source file:

| file | models |
|---|---|
| `common.dfy` | `Option` and `Result` |
| `numeric.dfy` | Go `strconv.ParseInt`/`Atoi`, `%d`, `ParseBool`, int64 wrap-around |
| `storage.dfy` | the browser's `localStorage` |
| `auth_client.dfy` | `services/auth.ts` |
| `api_client.dfy` | `services/api.ts` |
| `auth_slice.dfy` | `store/authSlice.ts` |
| `task_types.dfy` | the front end's task records |
| `task_slice.dfy` | `store/taskSlice.ts` |
| `task_form.dfy` | `components/tasks/TaskForm.tsx` |
| `register_page.dfy` | `pages/RegisterPage.tsx` |
| `task_model.dfy` | `internal/model/task.go` |
| `repository.dfy` | `internal/repository/task.go` |
| `task_service.dfy` | `internal/service/task.go` |
| `task_handler.dfy` | `internal/handler/task.go` |
| `auth_service.dfy` | `internal/service/auth.go` |
| `config.dfy` | `internal/config/config.go` |
| `cors.dfy` | `internal/middleware/cors.go` |

Two behaviours of the code are easy to miss, and the model states both as written:
- A login rejected with 401 (wrong password) goes through the same response interceptor as any other call. With no refresh token stored, the page is sent to `/login` and the caller sees "Session expired" rather than the login failure. `ApiClient.FailedLoginRedirects` states this.
- A logout whose server call fails still clears both tokens. The auth slice has no `logout.rejected` case, so `isAuthenticated` stays true. `AuthSlice.FailedLogoutKeepsSessionView` states this.

## Model

| member | source | states |
|---|---|---|
| Storage.LocalStorage.SetItem | apps/frontend/src/services/auth.ts:30-33 | the store afterwards maps the key to the value and is otherwise unchanged |
| Storage.LocalStorage.RemoveItem | apps/frontend/src/services/auth.ts:35-38 | the store afterwards lacks the key and is otherwise unchanged |
| AuthClient.Saved | apps/frontend/src/services/auth.ts:30-33 | both keys hold the response's tokens, the key set grows by exactly those two, every other entry is unchanged |
| AuthClient.Cleared | apps/frontend/src/services/auth.ts:35-38 | both keys are absent, the key set shrinks by exactly those two, every other entry is unchanged |
| AuthClient.IsAuthenticated | apps/frontend/src/services/auth.ts:40-46 | true iff a non-empty access token is stored |
| AuthClient.SaveTokens | apps/frontend/src/services/auth.ts:30-33 | the store becomes `Saved` of the old store |
| AuthClient.ClearTokens | apps/frontend/src/services/auth.ts:35-38 | the store becomes `Cleared` of the old store |
| AuthClient.Logout | apps/frontend/src/services/auth.ts:22-28 | the store is cleared whatever the server call did, and the call's outcome (a rejection included) is returned unchanged |
| AuthClient.ClearIdempotent | apps/frontend/src/services/auth.ts:35-38 | clearing twice equals clearing once |
| AuthClient.SavedAuthenticated | apps/frontend/src/services/auth.ts:30-46 | after saving, authenticated iff the saved access token is non-empty |
| AuthClient.ClearedUnauthenticated | apps/frontend/src/services/auth.ts:35-46 | after clearing, no access token and not authenticated |
| AuthClient.AuthenticatedIgnoresRefresh | apps/frontend/src/services/auth.ts:40-46 | setting or removing the refresh token never changes `isAuthenticated` |
| ApiClient.WithBearer | apps/frontend/src/services/api.ts:16-23 | headers get `Authorization: Bearer <token>` exactly when a non-empty access token is stored, else stay untouched |
| ApiClient.StoredRefreshToken | apps/frontend/src/services/api.ts:30-33 | a refresh token is available iff stored and non-empty |
| ApiClient.NewPair | apps/frontend/src/services/api.ts:39-43 | a refresh reply counts iff both fields are non-empty strings, and then yields that pair |
| ApiClient.InitialInv | apps/frontend/src/services/api.ts:6 | the initial state satisfies the slot invariant (slot empty iff no request waits; retry bookkeeping consistent) |
| ApiClient.SendPreservesInv | apps/frontend/src/services/api.ts:16-23 | sending a request keeps the invariant |
| ApiClient.SucceedPreservesInv | apps/frontend/src/services/api.ts:52 | a successful response keeps the invariant |
| ApiClient.FailPreservesInv | apps/frontend/src/services/api.ts:53-80 | the response interceptor's error path keeps the invariant |
| ApiClient.SettlePreservesInv | apps/frontend/src/services/api.ts:62-76 | settling the refresh keeps the invariant (slot emptied, no waiter left) |
| ApiClient.SingleFlight | apps/frontend/src/services/api.ts:56-67 | a refresh call starts only from an empty slot on a first 401 with a stored refresh token; otherwise the call count is unchanged |
| ApiClient.JoinInFlight | apps/frontend/src/services/api.ts:61-67 | a first 401 while the slot is set awaits the same refresh and starts no call |
| ApiClient.PassThrough | apps/frontend/src/services/api.ts:56-79 | a 401 on a retried request, or any other error, is rejected with the original error; slot, store, route and call count unchanged |
| ApiClient.NoRefreshToken | apps/frontend/src/services/api.ts:30-75 | with no refresh token the refresh fails at once with no network call: store cleared, redirect, "Session expired" |
| ApiClient.RefreshSucceeds | apps/frontend/src/services/api.ts:45-69 | a good reply stores the new pair, empties the slot and resends each waiter once with the new access token |
| ApiClient.RefreshFails | apps/frontend/src/services/api.ts:39-75 | a failed or malformed reply writes no token: both keys removed, redirect, waiters get "Session expired", slot emptied |
| ApiClient.FailedLoginRedirects | apps/frontend/src/services/auth.ts:6-9 | a login answered with 401 and no stored refresh token ends in the session-expired rejection and a redirect |
| ApiClient.JoinAll | apps/frontend/src/services/api.ts:61-67 | any number of first 401s while the slot is set all wait and start no call |
| ApiClient.ConcurrentFailuresShareOneRefresh | apps/frontend/src/services/api.ts:56-67 | N first 401s from an empty slot make exactly one refresh call and all N wait on it |
| ApiClient.ConcurrentFailuresResentWithSameToken | apps/frontend/src/services/api.ts:45-69 | when that one refresh succeeds, all N are resent once carrying the same new access token |
| ApiClient.Client.Send | apps/frontend/src/services/api.ts:16-23 | the client state advances by `SendStep` and keeps the invariant |
| ApiClient.Client.OnSuccess | apps/frontend/src/services/api.ts:52 | the client state advances by `SucceedStep` and keeps the invariant |
| ApiClient.Client.OnError | apps/frontend/src/services/api.ts:53-80 | the client state advances by `FailStep` and keeps the invariant |
| ApiClient.Client.OnRefreshSettled | apps/frontend/src/services/api.ts:39-76 | the client state advances by `SettleStep` and keeps the invariant |
| AuthSlice.Initial | apps/frontend/src/store/authSlice.ts:11-15 | the initial session view equals `isAuthenticated()` of the store at load; not loading, no error |
| AuthSlice.LoginOutcome | apps/frontend/src/store/authSlice.ts:20-26 | fulfilled iff the server answered; any failure is the fixed message 'Invalid username or password' |
| AuthSlice.RegisterOutcome | apps/frontend/src/store/authSlice.ts:30-39 | fulfilled iff the user was created; any failure is 'Registration failed' |
| AuthSlice.LogoutOutcome | apps/frontend/src/store/authSlice.ts:42-44 | fulfilled iff the server call resolved |
| AuthSlice.LoginThunk | apps/frontend/src/store/authSlice.ts:18-28 | tokens are saved only after a successful response; otherwise the store is untouched |
| AuthSlice.LogoutThunk | apps/frontend/src/store/authSlice.ts:42-44 | the store is cleared on both paths |
| AuthSlice.Slice.Dispatch | apps/frontend/src/store/authSlice.ts:46-83 | the slice's fields change exactly as the reducer says |
| AuthSlice.OnlyLogoutFulfilledLogsOut | apps/frontend/src/store/authSlice.ts:79-81 | only `logout.fulfilled` turns `isAuthenticated` off |
| AuthSlice.OnlyLoginFulfilledLogsIn | apps/frontend/src/store/authSlice.ts:60-63 | only `login.fulfilled` turns `isAuthenticated` on |
| AuthSlice.RegisterKeepsSession | apps/frontend/src/store/authSlice.ts:68-78 | register pending, fulfilled or rejected never changes `isAuthenticated` |
| AuthSlice.RejectionShowsPayload | apps/frontend/src/store/authSlice.ts:64-78 | login/register rejected: loading false, error = payload, session view unchanged |
| AuthSlice.PendingStartsLoading | apps/frontend/src/store/authSlice.ts:56-71 | login/register pending set loading and clear the error, nothing else |
| AuthSlice.ClearErrorOnlyError | apps/frontend/src/store/authSlice.ts:50-52 | `clearError` clears the error and changes nothing else |
| AuthSlice.LoginFulfilledAuthenticates | apps/frontend/src/store/authSlice.ts:60-63 | a successful login ends authenticated and not loading; a failed one keeps the session view |
| AuthSlice.FailedLogoutKeepsSessionView | apps/frontend/src/store/authSlice.ts:42-81 | a logout whose server call fails leaves the slice unchanged although the store was cleared |
| TaskSlice.ErrorText | apps/frontend/src/store/taskSlice.ts:86 | `message \|\| fallback`: the message when present and non-empty, else the fixed default |
| TaskSlice.IndexOf | apps/frontend/src/store/taskSlice.ts:104-116 | the first index holding the id, or -1 exactly when none does |
| TaskSlice.WithoutId | apps/frontend/src/store/taskSlice.ts:128 | keeps exactly the tasks whose id differs, never growing; with `WithoutIdAppend` and `WithoutIdSingle` this pins the order-preserving `filter` |
| TaskSlice.WithoutIdAppend | apps/frontend/src/store/taskSlice.ts:128 | filtering `a + b` is filtering `a` followed by filtering `b`, so the kept tasks keep their order and multiplicity |
| TaskSlice.WithoutIdSingle | apps/frontend/src/store/taskSlice.ts:128 | a single task is kept exactly when its id differs |
| TaskSlice.FindIndex | apps/frontend/src/store/taskSlice.ts:104-116 | the `findIndex` loop returns `IndexOf` |
| TaskSlice.Slice.constructor | apps/frontend/src/store/taskSlice.ts:14-21 | the slice starts with no tasks, total 0, page 1, 20 per page, not loading, no error |
| TaskSlice.Slice.Dispatch | apps/frontend/src/store/taskSlice.ts:66-134 | the slice's fields change exactly as the reducer says |
| TaskSlice.FetchReplaces | apps/frontend/src/store/taskSlice.ts:77-83 | fetch fulfilled replaces tasks, total, page and perPage and clears loading; the error is kept |
| TaskSlice.CreatePrependsOnFirstPage | apps/frontend/src/store/taskSlice.ts:91-96 | create fulfilled prepends only on page 1 and always adds 1 to total |
| TaskSlice.UpdateReplacesFirstMatch | apps/frontend/src/store/taskSlice.ts:103-108 | update fulfilled replaces only the first task with the id; with none the list is unchanged; length never changes |
| TaskSlice.StatusChangesOnlyStatus | apps/frontend/src/store/taskSlice.ts:115-120 | status fulfilled changes only the status field of the first match |
| TaskSlice.DeleteKeepsOthers | apps/frontend/src/store/taskSlice.ts:128 | removing an absent id keeps the list; removing a present one shortens it |
| TaskSlice.DeleteClampsTotal | apps/frontend/src/store/taskSlice.ts:127-130 | delete fulfilled: the list becomes the order-preserving filter `WithoutId`, and total becomes total-1 when total ≥ 1, else 0 (`Math.max(0, total - 1)`) |
| TaskSlice.RejectionKeepsData | apps/frontend/src/store/taskSlice.ts:84-133 | every rejection sets its message or fixed default and keeps tasks and total |
| TaskSlice.PendingClearsError | apps/frontend/src/store/taskSlice.ts:73-126 | fetch pending sets loading and clears the error; the other pending cases only clear the error |
| TaskForm.BeforeFirstT | apps/frontend/src/components/tasks/TaskForm.tsx:25 | a 'T'-free prefix of the input that stops just before the first 'T' |
| TaskForm.PrefillDate | apps/frontend/src/components/tasks/TaskForm.tsx:25 | '' when there is no due date, else exactly the text before the first 'T' (`split('T')[0]`) |
| TaskForm.Prefilled | apps/frontend/src/components/tasks/TaskForm.tsx:19-33 | a task's title, status and priority copied, an absent description becomes '', the date is `PrefillDate` of the task's; with no task: '', '', TODO, MEDIUM, '' |
| TaskForm.Payload | apps/frontend/src/components/tasks/TaskForm.tsx:40-46 | empty description and empty date are sent as absent; a non-empty date d is sent as exactly d + "T00:00:00Z" |
| TaskForm.BeforeFirstTAppend | apps/frontend/src/components/tasks/TaskForm.tsx:25-45 | a 'T'-free string followed by a 'T' suffix is cut back to itself |
| TaskForm.DateRoundTrip | apps/frontend/src/components/tasks/TaskForm.tsx:25-45 | a date without 'T' survives submit then prefill unchanged |
| TaskForm.SubmitError | apps/frontend/src/components/tasks/TaskForm.tsx:47-49 | no error on success; an Error's message; otherwise 'Failed to save task' |
| TaskForm.Form.Prefill | apps/frontend/src/components/tasks/TaskForm.tsx:19-33 | the fields become `Prefilled(task)`; loading and error untouched |
| TaskForm.Form.HandleSubmit | apps/frontend/src/components/tasks/TaskForm.tsx:35-52 | sends `Payload` of the fields; afterwards loading is false and the error is `SubmitError` of the outcome |
| RegisterPage.Utf16Length | apps/frontend/src/pages/RegisterPage.tsx:23 | JavaScript `length`: a single character counts 2 above U+FFFF and 1 otherwise; the total lies between the character count and twice it |
| RegisterPage.Utf16LengthAppend | apps/frontend/src/pages/RegisterPage.tsx:23 | the length of a concatenation is the sum of the lengths, so with the single-character case it counts every character |
| RegisterPage.ValidationError | apps/frontend/src/pages/RegisterPage.tsx:18-26 | mismatch is reported first; the length error only for matching passwords under 8 units; none iff both pass |
| RegisterPage.DisplayError | apps/frontend/src/pages/RegisterPage.tsx:34 | the local error if non-empty, else the store's error |
| RegisterPage.Utf16LengthOfBmp | apps/frontend/src/pages/RegisterPage.tsx:23 | for Basic Multilingual Plane text the length is the character count |
| RegisterPage.FourAstralCharactersPass | apps/frontend/src/pages/RegisterPage.tsx:23 | four emoji (eight code units) pass the length check |
| RegisterPage.Page.HandleSubmit | apps/frontend/src/pages/RegisterPage.tsx:14-32 | a failed check sets that error and calls nothing; otherwise sends exactly {username, email, password} and goes to /login iff fulfilled |
| TaskModel.ParseStatus | apps/api/internal/model/task.go:5-11 | inverse of `StatusName`: a string parses iff it names a status, and back |
| TaskModel.ParsePriority | apps/api/internal/model/task.go:13-19 | inverse of `PriorityName` |
| TaskModel.AllHold | apps/api/internal/model/task.go:34 | true iff every rule of the tag holds |
| TaskModel.Check | apps/api/internal/model/task.go:36-37 | `omitempty` passes an empty value; otherwise every rule must hold |
| TaskModel.OneOfListsAreTheEnums | apps/api/internal/model/task.go:36-37 | the `oneof` lists are exactly the enumerations |
| TaskModel.TagMeanings | apps/api/internal/model/task.go:34-50 | what each tag used on the request structs accepts |
| TaskModel.ValidCreate | apps/api/internal/model/task.go:33-39 | title non-empty and at most 200 characters; status and priority empty or in their enumerations |
| TaskModel.ValidUpdate | apps/api/internal/model/task.go:41-47 | title at most 200 characters, possibly empty; status and priority empty or in their enumerations |
| TaskModel.ValidStatusUpdate | apps/api/internal/model/task.go:49-51 | the status must be a member of the enumeration |
| TaskModel.EmptyUpdateBinds | apps/api/internal/model/task.go:42-50 | an all-empty update binds; an empty status update does not |
| Repository.WithDefaults | apps/api/internal/repository/task.go:29-34 | empty status becomes TODO, empty priority MEDIUM, non-empty values and other fields kept |
| Repository.WithDefaultsIdempotent | apps/api/internal/service/task.go:33-38 | defaulting twice equals defaulting once, so service and repository agree |
| Repository.FilterQueryNumbered | apps/api/internal/repository/task.go:78-91 | the count query's placeholders are $1..$k in order with exactly k arguments |
| Repository.FilterQueryMeaning | apps/api/internal/repository/task.go:78-91 | the count query selects exactly the caller's rows matching the non-empty status and priority filters |
| Repository.BuildCountQuery | apps/api/internal/repository/task.go:78-91 | the built query is numbered $1..$k, has k arguments and selects exactly the filtered rows |
| Repository.BuildPageQuery | apps/api/internal/repository/task.go:108-128 | same conditions and arguments as the count query, then LIMIT $k+1 and OFFSET $k+2 bound to per-page and offset; k+2 arguments |
| Repository.Normalized | apps/api/internal/repository/task.go:99-104 | page ≤ 0 becomes 1, per-page ≤ 0 becomes 20, positive values kept |
| Repository.Offset | apps/api/internal/repository/task.go:106 | `(page-1)*perPage` in 64-bit `int` |
| Repository.OffsetNonNegative | apps/api/internal/repository/task.go:99-106 | after normalisation the offset is exact and non-negative when the product fits in 64 bits |
| Repository.OffsetWraps | apps/api/internal/repository/task.go:106 | page 2^62 with 4 per page wraps the offset to -4 |
| Repository.TaskRepository.Create | apps/api/internal/repository/task.go:22-46 | inserts the defaulted task under a fresh id with both timestamps `now`; on a database error nothing changes |
| Repository.TaskRepository.GetByID | apps/api/internal/repository/task.go:48-75 | found iff a row has that id and that user_id; otherwise not-found; database errors passed on |
| Repository.TaskRepository.List | apps/api/internal/repository/task.go:77-165 | total is the number of rows the filter means; rows appended in order; an empty result is a non-nil empty slice; the page query is bound to the normalised page |
| Repository.TaskRepository.Update | apps/api/internal/repository/task.go:167-189 | only the row with that id and user_id changes (editable columns and updated_at); none gives not-found and no change |
| Repository.TaskRepository.UpdateStatus | apps/api/internal/repository/task.go:191-212 | only the owned row's status and updated_at change; no affected row is not-found |
| Repository.TaskRepository.Delete | apps/api/internal/repository/task.go:214-231 | only the owned row is removed; no affected row is not-found |
| TaskService.MapNotFound | apps/api/internal/service/task.go:47-56 | repository not-found becomes the service's `ErrTaskNotFound`; every other error passes unchanged |
| TaskService.NewTask | apps/api/internal/service/task.go:23-31 | the task belongs to the caller whatever the request, and copies the request's fields |
| TaskService.Merged | apps/api/internal/service/task.go:83-97 | each field is overwritten only by a non-empty (non-nil for the due date) request value; id, owner and times kept |
| TaskService.MergeIdempotent | apps/api/internal/service/task.go:83-97 | applying the same update twice equals applying it once |
| TaskService.EmptyUpdateKeepsTask | apps/api/internal/service/task.go:83-97 | an all-empty update changes nothing |
| TaskService.MergeKeepsEnums | apps/api/internal/service/task.go:83-97 | an update that passed binding keeps status and priority inside their enumerations |
| TaskService.CreatedTaskHasEnums | apps/api/internal/service/task.go:33-38 | a created task from a bound request has a valid status and priority |
| TaskService.TaskService.Create | apps/api/internal/service/task.go:23-45 | stores the caller's defaulted task under a fresh id; a database error changes nothing |
| TaskService.TaskService.GetByID | apps/api/internal/service/task.go:47-56 | the owned row, or `ErrTaskNotFound`, or the database error |
| TaskService.TaskService.List | apps/api/internal/service/task.go:58-72 | the metadata echoes the filter's page and per-page and the repository's total |
| TaskService.TaskService.Update | apps/api/internal/service/task.go:74-107 | the stored row becomes the merge of the old row and the request; not-found mapped; failures change nothing |
| TaskService.TaskService.UpdateStatus | apps/api/internal/service/task.go:109-117 | the owned row's status changes; not-found mapped |
| TaskService.TaskService.Delete | apps/api/internal/service/task.go:119-127 | the owned row is removed; not-found mapped |
| TaskHandler.ErrorStatus | apps/api/internal/handler/task.go:60-67 | 404 exactly for `ErrTaskNotFound`, 500 for anything else |
| TaskHandler.PageParam | apps/api/internal/handler/task.go:82-88 | at least 1: the parsed integer when it is > 0, else 1 |
| TaskHandler.PerPageParam | apps/api/internal/handler/task.go:83-91 | in 1..100: the parsed integer when in range, else 20 |
| TaskHandler.HandlerFilterIsNormal | apps/api/internal/handler/task.go:79-91 | the handler's filter is already normal, so the repository's fallbacks never fire |
| TaskHandler.HugePageAccepted | apps/api/internal/handler/task.go:86-88 | any parsable page is accepted, 2^62 included |
| TaskHandler.TaskHandler.Create | apps/api/internal/handler/task.go:24-44 | 401 iff no user; then 400 on a body that fails to bind; every service error is 500; 201 with the caller's new task |
| TaskHandler.TaskHandler.Get | apps/api/internal/handler/task.go:46-70 | 401 iff no user; 400 on a non-integer id; 404/500 on errors; 200 with the owned row |
| TaskHandler.TaskHandler.List | apps/api/internal/handler/task.go:72-100 | 401 iff no user; 500 on a query error; 200 with the page, the filtered total and the normalised page and per-page |
| TaskHandler.TaskHandler.Update | apps/api/internal/handler/task.go:102-132 | 401 first, then 400 for id then body, 404/500 on errors, 200 with the merged task |
| TaskHandler.TaskHandler.UpdateStatus | apps/api/internal/handler/task.go:134-163 | 401 first, then 400 for id then body, 404/500 on errors, 200 and only the status changes |
| TaskHandler.TaskHandler.Delete | apps/api/internal/handler/task.go:165-188 | 401 first, 400 on a bad id, 404/500 on errors, 200 and only the owned row is removed |
| AuthService.RefreshKey | apps/api/internal/service/auth.go:103 | the key starts with `refresh_token:` |
| AuthService.RefreshKeyInjective | apps/api/internal/service/auth.go:103 | different users never share a refresh-token key |
| AuthService.Issue | apps/api/internal/service/auth.go:179-209 | an HS256 token under the secret, for the user, of the given type, expiring `lifetime` after issue |
| AuthService.ValidateToken | apps/api/internal/service/auth.go:211-232 | valid iff signed with an HMAC method under the secret and now < exp; expired iff otherwise valid but now ≥ exp; every other failure is invalid |
| AuthService.ValidateAccessToken | apps/api/internal/service/auth.go:168-177 | valid iff the token validates and has type "access"; validation errors pass through |
| AuthService.IssuedTokenValidates | apps/api/internal/service/auth.go:179-232 | an issued token validates to its claims until, and only until, it expires |
| AuthService.RefreshTokenIsNotAccess | apps/api/internal/service/auth.go:173-175 | a refresh token is never accepted as an access token |
| AuthService.FindByUsername | apps/api/internal/service/auth.go:81 | a user with that username, or none exactly when no user has it |
| AuthService.FindById | apps/api/internal/service/auth.go:136 | a user with that id, or none exactly when no user has it |
| AuthService.FindByIdPosition | apps/api/internal/service/auth.go:136 | in a well-formed user table the user with id k is the k-th one, and ids outside 1..n find nobody |
| AuthService.RefreshDecision | apps/api/internal/service/auth.go:116-139 | accepts exactly when the token validates, is of refresh type, is the one stored under its user's key and the user exists; validation errors pass through, other failures are invalid-token |
| AuthService.StoredRefreshTokenAccepted | apps/api/internal/service/auth.go:116-160 | the refresh token `Login` stores for a registered user is accepted for that user until it expires |
| AuthService.RotationRejectsOldToken | apps/api/internal/service/auth.go:151-160 | after rotation the old token is accepted again only if it equals the token just stored |
| AuthService.SameSecondRotationKeepsToken | apps/api/internal/service/auth.go:195-209 | a refresh token issued and rotated in the same second is reissued identically, so it stays valid |
| AuthService.LogoutBlocksRefresh | apps/api/internal/service/auth.go:163-166 | after logout every refresh for that user fails |
| AuthService.LogoutLeavesOthers | apps/api/internal/service/auth.go:163-166 | logging one user out leaves every other user's refresh token in place |
| AuthService.Service.Register | apps/api/internal/service/auth.go:45-78 | a taken username (checked first) or email gives `ErrUserExists` and creates nothing; otherwise appends the user with a hash of the password |
| AuthService.Service.Login | apps/api/internal/service/auth.go:80-114 | unknown user and wrong password give the same error; success stores the refresh token under the user's key, replacing any earlier one, and reports "Bearer" |
| AuthService.Service.Refresh | apps/api/internal/service/auth.go:116-161 | rejects as `RefreshDecision` does with the store unchanged; on success stores the new refresh token under the same key |
| AuthService.Service.Logout | apps/api/internal/service/auth.go:163-166 | deletes the user's key; a store error changes nothing |
| Config.GetEnv | apps/api/internal/config/config.go:91-96 | a set variable wins even when empty; the default only when unset |
| Config.GetEnvInt | apps/api/internal/config/config.go:98-108 | the parsed integer, or the default when unset or unparsable |
| Config.GetEnvBool | apps/api/internal/config/config.go:110-120 | the parsed boolean, or the default when unset or unparsable |
| Config.GetJwtSecret | apps/api/internal/config/config.go:122-136 | fatal iff release mode with an empty or default secret; otherwise the configured secret |
| Config.ReleaseNeverUsesDefault | apps/api/internal/config/config.go:127-129 | in release mode a returned secret is neither empty nor the default |
| Config.AccessLifetime | apps/api/internal/config/config.go:82 | minutes × 1 minute in 64-bit nanoseconds, exact when it fits |
| Config.RefreshLifetime | apps/api/internal/config/config.go:83 | days × 24 × 1 hour in 64-bit nanoseconds |
| Config.WrapCongruent | apps/api/internal/config/config.go:82-83 | numbers congruent mod 2^64 wrap to the same int64 |
| Config.RefreshLifetimeWrapsOnce | apps/api/internal/config/config.go:83 | the two wrapping products equal one wrap of days×24 h, exact when it fits |
| Config.DefaultLifetimes | apps/api/internal/config/config.go:82-83 | the defaults are 15 minutes and 7 days |
| Config.LeadingSpaces | apps/api/internal/config/config.go:146 | the length of the leading white space |
| Config.TrailingStart | apps/api/internal/config/config.go:146 | where the trailing white space starts |
| Config.TrimSpace | apps/api/internal/config/config.go:146 | a middle slice of the input with no white space at either end, only white space cut off |
| Config.TrimIdempotent | apps/api/internal/config/config.go:146 | trimming twice equals trimming once |
| Config.Split | apps/api/internal/config/config.go:143 | at least one piece, none containing a comma |
| Config.SplitJoin | apps/api/internal/config/config.go:143 | joining the pieces with commas gives the input back |
| Config.Kept | apps/api/internal/config/config.go:145-150 | every result is non-empty and trimmed; with `KeptAppend` and `KeptSingle` this pins "trim each piece, drop blank ones, keep the order" |
| Config.KeptAppend | apps/api/internal/config/config.go:145-150 | keeping the pieces of `a + b` is keeping those of `a` followed by those of `b` |
| Config.KeptSingle | apps/api/internal/config/config.go:146-149 | one piece yields its trimmed text, or nothing when that is blank |
| Config.CorsOrigins | apps/api/internal/config/config.go:138-156 | never empty and never holding ""; `*` alone for "" or when every piece is blank; otherwise exactly the kept pieces of the comma split |
| Config.KeptOfClean | apps/api/internal/config/config.go:145-150 | already clean origins are kept as they are, in order |
| Config.SplitPrefix | apps/api/internal/config/config.go:143 | a comma-free prefix stays at the head of the first piece |
| Config.SplitOfJoin | apps/api/internal/config/config.go:143 | splitting comma-free pieces joined by commas gives the pieces back |
| Config.CorsOriginsOfJoin | apps/api/internal/config/config.go:138-156 | a comma-separated list of clean origins is parsed to exactly that list |
| Config.ParseCorsOrigins | apps/api/internal/config/config.go:138-156 | the loop returns `CorsOrigins` of the value |
| Config.LoadJwt | apps/api/internal/config/config.go:80-84 | fails iff the secret rule does; otherwise the secret and both lifetimes from the environment |
| Config.EmptyEnvDefaults | apps/api/internal/config/config.go:80-84 | an empty environment gives the default secret, 15 minutes and 7 days |
| Config.DefaultOriginsWildcard | apps/api/internal/config/config.go:53 | the default origin list is the single wildcard |
| Cors.FirstMatch | apps/api/internal/middleware/cors.go:14-24 | the first entry that is `*` or the origin, and none exactly when no entry is |
| Cors.ScanOrigins | apps/api/internal/middleware/cors.go:14-24 | the loop with `break` stops at the first match: `*` and wildcard, or the origin without wildcard, or "" |
| Cors.FirstMatchIs | apps/api/internal/middleware/cors.go:14-24 | a position preceded only by non-matches, and matching (or past the end), is the first match |
| Cors.Matched | apps/api/internal/middleware/cors.go:31-35 | every match sets Allow-Origin, the fixed Allow-Headers, Allow-Methods and Max-Age, appends `Origin` to Vary, and leaves every other header alone |
| Cors.Handle | apps/api/internal/middleware/cors.go:9-47 | no match: headers untouched and the request continues; wildcard: no credentials header; exact match: credentials "true"; a matched OPTIONS is aborted with 204 |
| Cors.ExactBeforeWildcardWins | apps/api/internal/middleware/cors.go:14-24 | an exact entry listed before any `*` wins |
| Cors.ConfiguredNoMatch | apps/api/internal/middleware/cors.go:26-29 | with configured origins, "no headers" means exactly "no entry accepts the origin" |
| Cors.DefaultAdmitsAll | apps/api/internal/middleware/cors.go:14-18 | the default configuration admits every origin as wildcard |
| Numeric.ParseInt64 | apps/api/internal/handler/task.go:53 | accepts only an optional sign followed by at least one digit and digits only; the value is the signed digit value (leading zeros allowed), and None when it leaves int64 |
| Numeric.LeadingZeroValue | apps/api/internal/handler/task.go:86 | a leading zero does not change the value of a digit run |
| Numeric.LeadingZerosIgnored | apps/api/internal/handler/task.go:86 | "0" followed by digits parses like the digits |
| Numeric.MalformedRejected | apps/api/internal/handler/task.go:86 | "", a bare sign, surrounding spaces and a decimal point are all rejected |
| Numeric.SignedExamples | apps/api/internal/handler/task.go:86 | "+7" is 7, "-7" is -7, "-0" is 0 |
| Numeric.LeadingZerosExample | apps/api/internal/handler/task.go:86 | "007" is 7 |
| Numeric.ParseFormatRoundTrip | apps/api/internal/handler/task.go:53 | parsing what `%d` printed gives the number back |
| Numeric.FormatIntInjective | apps/api/internal/service/auth.go:103 | distinct numbers print differently |
| Numeric.WrapInt64 | apps/api/internal/repository/task.go:106 | a 64-bit value congruent to the input mod 2^64, the input itself when it fits |
| Numeric.ParseBool | apps/api/internal/config/config.go:112 | true and false exactly for Go's accepted spellings |

## Left out

- Network transport, the axios 10-second timeout, `console.error` and `window.location` are not modelled. The redirect is a `redirected` flag, and replayed requests are new pending requests.
- Promise scheduling is collapsed into events: send, success, error and refresh settled. With no refresh token, the refresh rejects in the same turn that set the slot, so the model sets and clears the slot in one event.
- ApiClient: `refreshAccessToken` failures other than a malformed body (network error, non-2xx reply) are one `Failed` reply.
- `login`/`register` thunks of the auth slice are given the server outcome rather than calling the intercepted client. `ApiClient.FailedLoginRedirects` covers the interception itself.
- React rendering, routing, alerts and the JSX of the form and page are not modelled. The task list, task card, login and dashboard pages, the hooks and `services/tasks.ts` are not part of this model.
- Signed-token and bcrypt internals are not modelled: tokens and hashes are symbolic, and the token text is identified with the token.
- Clock reads are parameters (`now`), in whole seconds for tokens and opaque instants for rows.
- Redis key expiry is not modelled. The stored refresh token lives until it is replaced or deleted, and its own expiry check rejects it afterwards.
- A Redis read error is not modelled separately. In the source it gives the same `ErrInvalidToken` as a missing key.
- The user repository is not part of this model. Users are a sequence, and failed user queries and the unique-constraint fallback of `apps/api/internal/repository/user.go:34` are not modelled.
- AuthService.Service.Login: `expires_in` is the access lifetime in whole seconds. The float conversion of `Duration.Seconds()` is not modelled.
- AuthService.Service.Register: bcrypt's own failure is a `hashFault` parameter. The 72-byte password limit is not modelled.
- SQL execution is not modelled. The table is a map from id to row, and the rows the page query returns (ordering, LIMIT, OFFSET) are a parameter of `List`. Scan and `rows.Err` failures are folded into that parameter's error.
- Repository.OffsetNonNegative: the offset is shown non-negative only when `(page-1)*perPage` fits in 64 bits. `Repository.OffsetWraps` shows it wrapping negative otherwise.
- JSON decoding of request bodies is a parameter: a body that does not decode is `None`. The text of binding errors is not modelled.
- TaskModel.ValidCreate: `max=200` counts Unicode characters. Invalid UTF-8 in a request cannot be represented.
- Process wiring, database and Redis setup, graceful shutdown, health checks and the logging in `config.go` are not modelled. The configuration fields other than the JWT settings and CORS origins are plain `getEnv` lookups and are not modelled one by one.
- `log.Fatal` in `getJWTSecret` is an `Err` result.
