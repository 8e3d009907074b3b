# Client-side authentication session, modelled in Dafny

This project models the authentication session of a Next.js dashboard
template (`primeng-react`). The model covers:

- the Redux `auth` slice: its state, its reducer cases and the `login`,
  `logout` and `initializeAuth` thunks;
- the `AuthService` class, which checks expiry lazily;
- the `ErrorService` class, which turns a failed request into a toast;
- the `HttpService` class: it adds the Authorization header to each request,
  forwards failed responses to `ErrorService`, and repackages responses.

Modules, one per source file plus shared pieces:

- `Wrappers` (`wrappers.dfy`): `Option` and `Result`.
- `Browser` (`browser.dfy`): `localStorage` as a class. It holds a
  `map<string, string>` and a `hasWindow` flag, which stands for
  `typeof window !== 'undefined'`.
- `Jwt` (`jwt.dfy`): the claims (`Id`, `Name`, `Email`, `UserName`, `exp`), the
  `UserModel` record with its defaults, and the expiry test `now > exp`.
  `jwtDecode` is abstract: a `Decoder` is any function from a token to either
  its claims or the message of the error the library throws. A claim can be
  `Missing`, because the source reads claims without checking that they exist.
- `ErrorHandling` (`error_service.dfy`): the status classifier `Detail`, the
  toast receiver, the `ErrorService` class and its static `getInstance`.
- `Authentication` (`auth_service.dfy`): the `AuthService` class. The clock is
  an `int` parameter `now` in whole epoch seconds. Each `redirect('/login')`
  is recorded in the field `redirects`.
- `HttpClient` (`http_service.dfy`): the header merge, the interceptors and
  the four verbs. The network is a parameter `exchange`: a function from the
  outgoing request to the server's answer or to the error axios rejects with.
- `SessionSlice` (`auth_slice.dfy`): the `auth` slice. Each reducer case is a
  method of the class `AuthSlice` that updates its fields in place. Each
  thunk is a payload step followed by its reducer case (`Login`, `Logout`,
  `InitializeAuth`). Every dispatch keeps the invariant `Valid()`: token set
  ⇔ user set ⇔ `isAuthenticated`, and a held token is never empty.

Three behaviours of the code that are easy to misread, modelled as written:

- `login.rejected` removes the stored token on every failed login, including
  a login refused by the server (`app/store/slices/authSlice.ts:149`): a
  failed login removes the stored token whenever a window exists.
- `initializeAuth` restores a token without checking its `exp`
  (`app/store/slices/authSlice.ts:106-123`). `SessionSlice.RestoreIgnoresExpiry`
  states this.
- A login whose token does not decode is rejected with the decoder's own error
  message (`error.message`), not with "Token alınamadı". That text is used
  only when the response carries no token.

## Model

| member | source | states |
|---|---|---|
| `Jwt.UserOf` | app/store/slices/authSlice.ts:83-88 | the user's id, name, email and userName are the claims `Id`, `Name`, `Email` and `UserName`, each as read, absent or not (the same record is built at authSlice.ts:111-116 and AuthService.tsx:41-46) |
| `Jwt.Expired` | app/shared/AuthService.tsx:36 | a token is expired exactly when it has an `exp` and `exp < now`; without `exp` it never expires |
| `Jwt.ExpiryBoundary` | app/shared/AuthService.tsx:34-38 | a token is still valid in the second equal to its `exp` and expired from the next second on |
| `Jwt.ExpiredStaysExpired` | app/shared/AuthService.tsx:34-38 | once a token is expired it stays expired at every later time |
| `ErrorHandling.Detail` | app/shared/ErrorService.tsx:51-115 | the toast detail is never empty: the fallback texts cover a missing or empty server list |
| `ErrorHandling.JoinEmptyIff` | app/shared/ErrorService.tsx:66 | a `'\n'` join is empty exactly when there are no messages or one empty message, which is when the fallback is shown |
| `ErrorHandling.LinesOfJoin` | app/shared/ErrorService.tsx:66 | splitting the joined text at line breaks gives back exactly the server's messages, in order, when none has a line break of its own |
| `ErrorHandling.ListedDetail` | app/shared/ErrorService.tsx:62-87 | for 400 and 403 the detail is the server's `ErrorMessages`, one per line; with no list, an empty list or one empty message it is 'Geçersiz istek' or 'Yetkisiz erişim' |
| `ErrorHandling.FixedDetail` | app/shared/ErrorService.tsx:51-114 | no response gives 'API adresine ulaşılamıyor'; 401, 404 and 500 give their fixed texts; any other status gives 'Beklenmeyen bir hata oluştu' |
| `ErrorHandling.DetailIgnoresBody` | app/shared/ErrorService.tsx:61-115 | for statuses other than 400 and 403 only the status decides the detail, not the body or the error message |
| `ErrorHandling.ErrorToast` | app/shared/ErrorService.tsx:51-114 | every error toast has severity error, summary 'Hata', life 3000 and the classified detail |
| `ErrorHandling.ErrorService.constructor` | app/shared/ErrorService.tsx:21-23 | a new service has no toast receiver and has logged nothing |
| `ErrorHandling.ErrorService.SetToastInstance` | app/shared/ErrorService.tsx:32-34 | the receiver is overwritten by the new one |
| `ErrorHandling.ErrorService.ShowToast` | app/shared/ErrorService.tsx:36-42 | with no receiver only 'Toast instance not set' is logged; otherwise the receiver shows exactly that message |
| `ErrorHandling.ErrorService.ErrorHandler` | app/shared/ErrorService.tsx:44-116 | with no receiver it only logs; otherwise it shows exactly one toast, `ErrorToast(e)`, and logs nothing |
| `ErrorHandling.ErrorServiceClass.constructor` | app/shared/ErrorService.tsx:20 | the static `instance` slot starts unset |
| `ErrorHandling.ErrorServiceClass.GetInstance` | app/shared/ErrorService.tsx:25-30 | the first call creates a fresh service without a receiver; every later call returns that same instance |
| `ErrorHandling.GetInstanceIsStable` | app/shared/ErrorService.tsx:25-30 | two calls of `getInstance` return the same object |
| `ErrorHandling.LastRegistrationWins` | app/shared/ErrorService.tsx:32-34 | after two registrations an error is shown by the second receiver only |
| `Authentication.LiveUntilExp` | app/shared/AuthService.tsx:32-48 | a decodable, non-empty token is live at `now == exp` and not live one second later |
| `Authentication.AuthService.constructor` | app/shared/AuthService.tsx:17-20 | the service starts with an empty token and the default `UserModel` |
| `Authentication.AuthService.IsAuthenticated` | app/shared/AuthService.tsx:22-54 | no window gives false and changes nothing; with a window it is true exactly when the stored token is non-empty, decodes and is not expired, and then it caches the token and the decoded user; an absent or empty token gives false and one redirect to /login; a token that fails to decode or has expired gives false and logs out |
| `Authentication.AuthService.GetToken` | app/shared/AuthService.tsx:56-59 | the stored token, or '' when none is stored; without a window the unguarded read throws |
| `Authentication.AuthService.GetUser` | app/shared/AuthService.tsx:61-63 | the user cached by the last successful check, or the default user |
| `Authentication.AuthService.Logout` | app/shared/AuthService.tsx:65-72 | removes the stored token, sets the token to '', resets the user to id 0 with empty strings, and redirects to /login; without a window it changes nothing |
| `Authentication.ExpiryDuringSession` | app/shared/AuthService.tsx:22-54 | a token checked at any time up to its `exp` is accepted; checked again after its `exp` it is rejected and the store is cleared, without a restart |
| `HttpClient.Authorize` | app/shared/HttpService.tsx:28-35 | a non-empty token sets `Authorization: Bearer <token>` and keeps every other header; an empty token leaves the config as it was; nothing but the headers changes |
| `HttpClient.AuthorizeIdempotent` | app/shared/HttpService.tsx:28-35 | running the merge a second time changes nothing |
| `HttpClient.OutgoingHeaders` | app/shared/HttpService.tsx:18-35 | the request sent carries `Content-Type: application/json` unless the caller overrides it, the bearer header exactly when a token is stored, and the caller's other headers |
| `HttpClient.Repackage` | app/shared/HttpService.tsx:54-58 | the result has the response's data, status and statusText |
| `HttpClient.HttpService.constructor` | app/shared/HttpService.tsx:13-23 | the service uses the given auth service and error service |
| `HttpClient.HttpService.InterceptRequest` | app/shared/HttpService.tsx:26-40 | the config after `Authorize` with the token `getToken` reads, or the thrown error when there is no window |
| `HttpClient.HttpService.InterceptResponseError` | app/shared/HttpService.tsx:42-48 | the error is reported once through `errorHandler` and rejected unchanged |
| `HttpClient.HttpService.Send` | app/shared/HttpService.tsx:17-49 | a call returns the repackaged response and reports nothing, or returns the very error it failed with after reporting it exactly once; there is no retry |
| `HttpClient.HttpService.Get` | app/shared/HttpService.tsx:51-62 | as `Send`, for GET without a body |
| `HttpClient.HttpService.Post` | app/shared/HttpService.tsx:64-75 | as `Send`, for POST with the given body |
| `HttpClient.HttpService.Put` | app/shared/HttpService.tsx:77-88 | as `Send`, for PUT with the given body |
| `HttpClient.HttpService.Delete` | app/shared/HttpService.tsx:90-101 | as `Send`, for DELETE without a body |
| `SessionSlice.RejectValue` | app/store/slices/authSlice.ts:91-97 | the rejection's message is never empty: the server's `data.message` when non-empty, else the error's own message, else 'Bir hata oluştu'; its status is the response status, present exactly when there was a response; with a response its list is the server's `ErrorMessages` when sent (an empty list is kept), else the single own message; without a response the list is exactly the message |
| `SessionSlice.LoginOutcome` | app/store/slices/authSlice.ts:69-97 | login is fulfilled exactly when the request succeeded with a non-empty token that decodes, and then carries that token and the user from the `Id`, `Name`, `Email` and `UserName` claims; an empty token is rejected with 'Token alınamadı'; a token that fails to decode is rejected with the decoder's error message and no status; every rejection has a non-empty message |
| `SessionSlice.EmptyTokenRejection` | app/store/slices/authSlice.ts:73-78 | an empty or absent token is rejected with message and only listed message 'Token alınamadı' |
| `SessionSlice.RefusedLoginKeepsStatus` | app/store/slices/authSlice.ts:91-97 | a login the server refuses is rejected with the server's status |
| `SessionSlice.InitializePayload` | app/store/slices/authSlice.ts:106-123 | the restore payload exists exactly when the stored value is non-empty and decodes, and then it holds that token and its user |
| `SessionSlice.RestoreIgnoresExpiry` | app/store/slices/authSlice.ts:106-123 | an expired token is restored just like a live one |
| `SessionSlice.GetStorageItem` | app/store/slices/authSlice.ts:45-50 | the stored value, or null for a missing key or when there is no window |
| `SessionSlice.SetStorageItem` | app/store/slices/authSlice.ts:52-56 | stores the value under the key; without a window nothing changes |
| `SessionSlice.RemoveStorageItem` | app/store/slices/authSlice.ts:58-62 | removes the key; without a window nothing changes |
| `SessionSlice.StorageRoundTrip` | app/store/slices/authSlice.ts:45-62 | a stored value reads back as itself, and after removal the read gives null |
| `SessionSlice.LoginThunk` | app/store/slices/authSlice.ts:64-98 | settles as `LoginOutcome`; a non-empty token is stored before it is decoded, and otherwise storage is untouched |
| `SessionSlice.LogoutThunk` | app/store/slices/authSlice.ts:100-103 | removes the stored token and returns true |
| `SessionSlice.InitializeAuthThunk` | app/store/slices/authSlice.ts:106-123 | yields `InitializePayload` of the stored value; a stored value that does not decode is removed; otherwise storage is untouched |
| `SessionSlice.AuthSlice.constructor` | app/store/slices/authSlice.ts:37-42 | the slice starts in `initialState`, which satisfies the invariant |
| `SessionSlice.AuthSlice.ClearError` | app/store/slices/authSlice.ts:129-131 | only the error is cleared, and the invariant is kept |
| `SessionSlice.AuthSlice.LoginPending` | app/store/slices/authSlice.ts:135-137 | only the error is cleared; token, user and isAuthenticated are unchanged |
| `SessionSlice.AuthSlice.LoginFulfilled` | app/store/slices/authSlice.ts:138-143 | token and user come from the payload, isAuthenticated is true and the error is null |
| `SessionSlice.AuthSlice.LoginRejected` | app/store/slices/authSlice.ts:144-150 | signs out, records the payload or `{message: 'Giriş başarısız'}`, and removes the stored token |
| `SessionSlice.AuthSlice.LogoutFulfilled` | app/store/slices/authSlice.ts:151-156 | the state becomes `initialState` |
| `SessionSlice.AuthSlice.InitializeAuthFulfilled` | app/store/slices/authSlice.ts:157-163 | a payload signs in and keeps the error; a null payload leaves the state unchanged |
| `SessionSlice.AuthSlice.Login` | app/store/slices/authSlice.ts:64-150 | keeps the invariant; on success the token is stored and the user is signed in with no error; on any failure the state is signed out with the rejection as its error, and no token is left in storage, not even after a decoding failure |
| `SessionSlice.AuthSlice.Logout` | app/store/slices/authSlice.ts:100-156 | removes the stored token and returns the state to `initialState` |
| `SessionSlice.AuthSlice.InitializeAuth` | app/store/slices/authSlice.ts:106-163 | keeps the invariant; with a stored token that decodes it signs in from the claims without looking at `exp`; otherwise it leaves the state unchanged and removes a token that does not decode |
| `SessionSlice.LogoutTwice` | app/store/slices/authSlice.ts:100-156 | logging out twice ends in the same state and storage as logging out once |

## Left out

- Async and promise semantics of `createAsyncThunk`: each thunk runs as one sequential step. Interleaving, concurrent logins and stale responses are not modelled.
- The login request: `SessionSlice.AuthSlice.Login` takes the outcome of `HttpService.post('Auth/Login', …)` as the parameter `posted`. The toast that a failing post shows is modelled in `HttpClient.HttpService.Post`, not repeated in the slice.
- A login response without `data.data` makes `response.data.data.token` throw a TypeError. This is not modelled: the body is reduced to its token field.
- `jwtDecode` internals (base64 and JSON parsing) are abstract. Claim values are limited to absent, integer and string. A non-numeric or fractional `exp` is not modelled.
- `Date.now()` is the parameter `now`, already floored to whole seconds.
- Next's `redirect` throws internally to stop rendering. The model records it as an event and continues, so the control flow of that throw inside `isAuthenticated`'s `try` is not modelled.
- The `console.error('Token decode error:', …)` line in `AuthService.isAuthenticated` is not recorded. `ErrorService`'s `console.error` lines are recorded as `diagnostics`.
- Several axios behaviours are not modelled: base URL handling, actual HTTP, `validateStatus`, and registering the interceptors on the instance. The pass-through request-error handler (`app/shared/HttpService.tsx:37-39`) is also left out. The model assumes axios merges the instance's default headers under the call's headers before the interceptors run. It also assumes that an error thrown by the request interceptor reaches the response-error interceptor.
- Header names are compared exactly. The case-insensitive matching of axios headers is not modelled.
- `ErrorMessages` entries are strings. JavaScript's joining of `null` or non-string entries is not modelled.
- Toast rendering and the success toast shown by the login page.
- The route guard in `app/(main)/layout.tsx`, `layout/AppTopbar.tsx`, `app/providers.tsx` (effect wiring and `PersistGate`) and `app/shared/ResultModel.tsx` are not part of this model. `app/models/UserModel.tsx` is used only as the `Jwt.User` record and its default `Jwt.DefaultUser`.
