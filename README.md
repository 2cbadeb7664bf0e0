# Unified Asset Transfer: WebAuthn-guarded sign-in, modelled in Dafny

This project models the security core of the Unified Asset Transfer system in Dafny. On the browser side it covers:

- the global store: the state record, its actions and the reducer;
- the provider effects that mirror the identity provider's (Clerk's) user and session token into the store;
- the service layer: the generic API call, its error-registry discipline, the fixed endpoints, the device-list fallback and the notification service;
- the hooks the components call. These include the WebAuthn registration and validation ceremonies, with their byte conversions.

On the Django side it covers:

- the user table and its manager;
- the Clerk token authentication backend;
- the Clerk webhook that mirrors users into the table;
- the WebAuthn credential and challenge tables and the four WebAuthn views;
- the admin site's session gate, which opens admin pages on a session flag; the site's completion view sets that flag on any POST.

Everything the core calls but cannot see is a parameter:

- `fetch` and `response.json()`;
- `navigator.credentials.create` and `navigator.credentials.get`;
- `session.getToken()`, the clock and `Math.random()`;
- Clerk's JWKS fetch and JWT decoding, and the HMAC digest;
- the `webauthn` library's option generators and response verifiers, and the random challenge bytes.

Browser-side operations are methods over a `Runtime` that records every dispatch, request, timer and ceremony in order. Each method is proved equal to a pure specification function of its inputs, and the lemmas are stated about those functions. Server-side tables are classes (`UserTable`, `MfaStore`, `Session`) whose methods are proved equal to pure `...Step` functions that return the new table and the reply. An exception that escapes a Django view is a `Raised` result.

Modules:

- `Common`, `Strings`, `Django`: shared values such as Option, Python results, `trim`/`strip` and decimal rendering.
- `AppContext`: the store.
- `Effects`: the effect recorder.
- `WebAuthnWire`: the byte conversions of the ceremonies.
- `ApiService`: the service layer.
- `AppProvider`: the provider effects.
- `UseApi`: the hooks.
- `UserModels`, `ClerkBackend`, `ClerkWebhook`: users.
- `WebAuthnModels`, `WebAuthnViews`: second factor.
- `AdminGate`: the admin gate.

Where the documented design and the code differ, the model follows the code:

- `getUserDevices` never throws, so the `catch` in `loadDevices` is dead and no "mock data" notice is ever emitted.
- The three guarded loads rethrow after notifying.
- Several precondition failures throw without a notification.
- `RESET_STATE` also resets `lastUpdated`.
- A null token is sent as `Authorization: Bearer null`.
- `SET_USER_LOADED` can set the loaded flag back to false.
- Notification ids are readings of `Date.now() + Math.random()` and are not shown to be unique.
- Token responses are applied last-to-resolve-wins; no generation counter exists.

## Model

| member | source | states |
|---|---|---|
| AppContext.Apply | frontend/src/contexts/AppContext.jsx:43-122 | the reducer is total. It keeps `hasWebAuthnDevice == (devices non-empty)`. Only SET_USER, SET_JWT_TOKEN, SET_WEBAUTHN_DEVICES and RESET_STATE move `lastUpdated`. Only the notification actions and RESET_STATE change the queue, and only the error actions and RESET_STATE change the error map. |
| AppContext.InitialStateProperties | frontend/src/contexts/AppContext.jsx:5-25 | the initial state satisfies the device-flag invariant and is signed out: no user, no token, no errors, no notifications. |
| AppContext.SetDevicesProperties | frontend/src/contexts/AppContext.jsx:72-79 | a device update re-establishes the derived flag from any state and stops loading. A payload without `devices` gives an empty list. |
| AppContext.SetJwtTokenProperties | frontend/src/contexts/AppContext.jsx:58-64 | SET_JWT_TOKEN stores any token (null included), ends loading, stamps the time and changes nothing else. |
| AppContext.SetApiErrorProperties | frontend/src/contexts/AppContext.jsx:87-94 | SET_API_ERROR records the message under its key, keeps every other entry and changes nothing else. |
| AppContext.ClearApiErrorProperties | frontend/src/contexts/AppContext.jsx:96-102 | CLEAR_API_ERROR removes exactly its key and keeps the other entries. It is idempotent, and it is the identity when the key is absent. |
| AppContext.AddNotificationProperties | frontend/src/contexts/AppContext.jsx:104-108 | the new notification goes last and the earlier ones keep their order. |
| AppContext.RemoveNotificationProperties | frontend/src/contexts/AppContext.jsx:110-114 | every entry with the id is dropped and every other entry is kept. It is idempotent, and it is the identity when no entry has the id. |
| AppContext.RemoveByIdAppend | frontend/src/contexts/AppContext.jsx:113 | removal by id distributes over concatenation, so order is kept. |
| AppContext.LastUpdatedProperties | frontend/src/contexts/AppContext.jsx:45-79 | the three stamping actions set `lastUpdated` to the dispatch time, RESET_STATE clears it and every other action keeps it. The loaded flag is stored as given. |
| AppContext.ResetAndUnknownProperties | frontend/src/contexts/AppContext.jsx:116-120 | RESET_STATE yields the initial state and an unknown action yields the state unchanged. |
| AppContext.RunPreservesHasDevice | frontend/src/contexts/AppContext.jsx:72-79 | the derived device flag holds after every dispatch sequence that starts from a state where it holds. |
| AppContext.RunAloneClearsOnlyErrors | frontend/src/contexts/AppContext.jsx:96-102 | a sequence of clears removes exactly the cleared keys and changes nothing else. |
| AppContext.RunRemovalsOnly | frontend/src/contexts/AppContext.jsx:110-114 | a sequence of removals leaves only old notifications, none of them with a removed id, and changes nothing else. |
| AppProvider.UserSync | frontend/src/contexts/AppContext.jsx:135-138 | the user effect dispatches SET_USER with the provider's user, then SET_USER_LOADED with its flag. |
| AppProvider.SyncUser | frontend/src/contexts/AppContext.jsx:135-138 | the effect's dispatches are exactly those of `UserSync`. |
| AppProvider.UserSyncOnStore | frontend/src/contexts/AppContext.jsx:135-138 | afterwards the store holds the provider's user and loaded flag. Nothing else changes except the stamp. |
| AppProvider.RefreshToken | frontend/src/contexts/AppContext.jsx:141-169 | the token effect's dispatches match the signed-in test and the settlement of `getToken`. This covers the `finally` and the `'jwt'` error. |
| AppProvider.TokenRefreshOnStore | frontend/src/contexts/AppContext.jsx:141-166 | loading always ends off. The issued token is stored only when signed in and resolved; otherwise the token is null. A rejection records `Token retrieval failed: <message>` under `'jwt'`. User, devices and notifications are untouched. |
| AppProvider.SignOutClearsToken | frontend/src/contexts/AppContext.jsx:162-165 | with no user the token ends null and loading off, whatever `getToken` would do. |
| Effects.ApiBaseUrl | frontend/src/services/apiService.js:4 | the base is the configured URL when it is truthy, otherwise `/api/v1`; it is never empty. |
| Effects.Runtime.constructor | frontend/src/services/apiService.js:4 | a new runtime has no recorded effects, and its base URL is `ApiBaseUrl` of the build's setting. |
| WebAuthnWire.ToBytes | frontend/src/hooks/useApi.js:61 | `new Uint8Array(array)` reduces each element modulo 256 and keeps the length. |
| WebAuthnWire.FromBytes | frontend/src/hooks/useApi.js:72 | `Array.from(new Uint8Array(buffer))` keeps each octet's value and the length. |
| WebAuthnWire.BytesRoundTrip | frontend/src/hooks/useApi.js:61-78 | array to bytes to array is the identity exactly when every element is an octet. Bytes to array to bytes is always the identity. |
| WebAuthnWire.CreationOptionsFromWire | frontend/src/hooks/useApi.js:58-67 | the challenge and the user id become `ToBytes` of their wire arrays. The rest, `excludeCredentials` included, passes unchanged. The conversion is lossless exactly when both are octet arrays. |
| WebAuthnWire.RequestOptionsFromWire | frontend/src/hooks/useApi.js:134-143 | the challenge and every allowed id become `ToBytes` of their wire arrays, one descriptor per wire descriptor with its type and other members kept. A missing list stays missing, and each id is lossless exactly when it is an octet array. |
| WebAuthnWire.CredentialToWire | frontend/src/hooks/useApi.js:70-78 | every buffer of the new credential becomes an octet array from which the bytes are recovered exactly. |
| WebAuthnWire.AssertionToWire | frontend/src/hooks/useApi.js:146-156 | the same holds for the assertion, and a null user handle stays null. |
| Strings.TrimByEmptyIff | frontend/src/hooks/useApi.js:28 | `trim()` leaves nothing exactly when every character is whitespace, which is the rejected key name. |
| Strings.Decimal | backend/webauthn_mfa/views.py:43 | the decimal rendering of an id is a non-empty string of digits. |
| ApiService.MergeHeaders | frontend/src/services/apiService.js:9-17 | the headers sent are JSON content overridden by every given header, `Bearer null` included. No other header is added. |
| ApiService.ErrorMessageOf | frontend/src/services/apiService.js:24-26 | the message is never empty. It is `Unknown error` for an unparsable body, the body's truthy `message`, or otherwise `HTTP <status>`. |
| ApiService.MakeApiCall | frontend/src/services/apiService.js:7-50 | the call's effects and settlement are exactly `ApiCallSpec`. |
| ApiService.ApiCallRequest | frontend/src/services/apiService.js:19-22 | exactly one request is made, first, to base plus url with the merged headers. A missing method is GET. No ceremony or notification happens. |
| ApiService.ApiCallSettlement | frontend/src/services/apiService.js:7-50 | data is returned if and only if the response is 2xx with a JSON body (and a dispatch exists when a key is given). The data is the parsed body. A rejected fetch rethrows the same error, and a non-2xx response raises the derived message. |
| ApiService.ApiCallRegistry | frontend/src/services/apiService.js:31-46 | with a key, success dispatches exactly one clear of it and failure exactly one set with the message. Without a key neither happens. |
| ApiService.ApiCallOnStore | frontend/src/services/apiService.js:31-46 | the call changes only its own error entry: removed on success, set to the message on failure. |
| ApiService.EndpointOf | frontend/src/services/apiService.js:53-260 | each service call has a non-empty error key. Exactly the four reads pass no method, and they send no body. |
| ApiService.ErrorKeysDistinct | frontend/src/services/apiService.js:53-260 | two calls share an error key if and only if they are of the same kind. |
| ApiService.BearerHeader | frontend/src/services/apiService.js:63 | the header is `Bearer ` followed by the token, or `Bearer null` for a null token. |
| ApiService.CallService | frontend/src/services/apiService.js:53-260 | a service call performs exactly the generic call on its endpoint, with its key. |
| ApiService.ServiceRequest | frontend/src/services/apiService.js:53-260 | it makes one request with the call's method, path, body, JSON content and Bearer header. The store sees only its own error entry cleared or set. |
| ApiService.MockDevices | frontend/src/services/apiService.js:75-84 | the fallback list holds one sample key exactly when the coin is true, and none otherwise. |
| ApiService.FetchUserDevices | frontend/src/services/apiService.js:55-89 | `getUserDevices` performs exactly `GetUserDevicesSpec` and never throws. |
| ApiService.GetUserDevicesTrace | frontend/src/services/apiService.js:55-89 | it dispatches the loading flag first, then the request's registry action, then exactly one device list: the fetched one or the fallback. It makes one request. |
| ApiService.GetUserDevicesOnStore | frontend/src/services/apiService.js:55-89 | afterwards loading is off, the list shown is the one returned and the flag agrees with it. The device error is kept on fallback and removed on success. |
| ApiService.AddNotificationNow | frontend/src/services/apiService.js:265-284 | `addNotification` performs exactly `AddNotificationSpec` and returns the id. |
| ApiService.AddNotificationTrace | frontend/src/services/apiService.js:265-284 | it adds one notification with the message, the severity (`info` by default) and the id. A removal of that id is scheduled if and only if the duration (5000 by default) is positive. |
| ApiService.AddThenExpire | frontend/src/services/apiService.js:274-281 | when the timer fires, the queue is the earlier queue minus entries sharing the id, which is the earlier queue itself when the id is fresh. |
| ApiService.RemoveNotificationNow | frontend/src/services/apiService.js:287-289 | it dispatches exactly one removal of the id. |
| UseApi.ClassifyCeremonyError | frontend/src/hooks/useApi.js:93-101 | the message is the cancelled text for NotAllowedError, the unsupported text for NotSupportedError, otherwise the error's message or the fallback. |
| UseApi.MessageOr | frontend/src/hooks/useApi.js:205 | the message is the error's message when non-empty, otherwise the fallback. |
| UseApi.HttpFailureNoticeIsServerMessage | frontend/src/services/apiService.js:24-26 | an HTTP failure is always shown with its own non-empty message and never with the fallback. |
| UseApi.LoadDevices | frontend/src/hooks/useApi.js:11-24 | `loadDevices` performs exactly `LoadDevicesEvents`. |
| UseApi.LoadDevicesProperties | frontend/src/hooks/useApi.js:11-24 | it never notifies, because its catch is dead. With a user it makes exactly the device request and dispatches the list. Without one it does nothing. |
| UseApi.DisplayName | frontend/src/hooks/useApi.js:52 | the display name is the full name when truthy, otherwise the primary email. |
| UseApi.RegisterFinishStep | frontend/src/hooks/useApi.js:80-91 | the complete, reload and notify step performs exactly `RegisterFinish`. |
| UseApi.RegisterCeremonyStep | frontend/src/hooks/useApi.js:57-78 | the ceremony step performs exactly `RegisterCeremony`. |
| UseApi.RegisterTryStep | frontend/src/hooks/useApi.js:42-91 | the `try` block performs exactly `RegisterTry`. |
| UseApi.RegisterDevice | frontend/src/hooks/useApi.js:27-106 | `registerDevice` performs exactly `RegisterDeviceSpec`. |
| UseApi.RegisterPreconditions | frontend/src/hooks/useApi.js:28-40 | with no user or a blank key name it throws at once and does nothing. With no token it emits one warning, makes no request and starts no ceremony. |
| UseApi.RegisterFinishFacts | frontend/src/hooks/useApi.js:80-91 | success is reported only after the complete request and the reload. A failure rethrows having made only that request. |
| UseApi.RegisterCeremonyFacts | frontend/src/hooks/useApi.js:57-78 | exactly one creation ceremony is started first, on the converted options. A rejection is rethrown with no request made. |
| UseApi.RegisterTryFacts | frontend/src/hooks/useApi.js:42-91 | the block succeeds if and only if there is support, begin succeeds, the ceremony resolves and complete succeeds. A failure notifies nothing and rethrows that step's error. |
| UseApi.RegisterTryOk | frontend/src/hooks/useApi.js:42-91 | on success the steps happened in order, with the trimmed key name, and notification comes last. |
| UseApi.RegisterSuccess | frontend/src/hooks/useApi.js:27-91 | a successful registration emits exactly one success notice, after the begin request, one ceremony, the complete request and the reload. |
| UseApi.RegisterFailure | frontend/src/hooks/useApi.js:92-105 | every failure in the block emits exactly one error notice with the classified message and rethrows the same error. |
| UseApi.ValidateFinishStep | frontend/src/hooks/useApi.js:145-166 | the complete and notify step performs exactly `ValidateFinish`. |
| UseApi.ValidateCeremonyStep | frontend/src/hooks/useApi.js:133-156 | the ceremony step performs exactly `ValidateCeremony`. |
| UseApi.ValidateTryStep | frontend/src/hooks/useApi.js:124-166 | the `try` block performs exactly `ValidateTry`. |
| UseApi.ValidateDevice | frontend/src/hooks/useApi.js:109-181 | `validateDevice` performs exactly `ValidateDeviceSpec`. |
| UseApi.ValidateFinishFacts | frontend/src/hooks/useApi.js:145-166 | it notifies only on success, after the complete request that carries the converted assertion. |
| UseApi.ValidateCeremonyFacts | frontend/src/hooks/useApi.js:133-156 | exactly one assertion ceremony is started first, on the converted options. A rejection is rethrown with no request made. |
| UseApi.ValidateTryFacts | frontend/src/hooks/useApi.js:124-166 | the block succeeds if and only if every step does. A failure notifies nothing and rethrows that step's error. |
| UseApi.ValidateTryOk | frontend/src/hooks/useApi.js:124-166 | on success: the begin request, one ceremony on the converted options, the converted assertion sent, then the notification. |
| UseApi.ValidateProperties | frontend/src/hooks/useApi.js:109-181 | with no user it throws at once, and with no token it emits one warning and makes no request. Past those checks it emits exactly one notice: success, or the classified error with the same error rethrown. |
| UseApi.DeleteDeviceHook | frontend/src/hooks/useApi.js:184-210 | `deleteDevice` performs exactly `DeleteDeviceSpec`. |
| UseApi.DeleteProperties | frontend/src/hooks/useApi.js:184-210 | with no token it throws `Missing JWT token` and does nothing. Otherwise the DELETE comes first, and a failure emits one notice with the message and rethrows. |
| UseApi.DeleteSuccess | frontend/src/hooks/useApi.js:189-201 | a successful deletion reloads the devices when there is a user, then emits its one success notice. |
| UseApi.ReloadFacts | frontend/src/hooks/useApi.js:12-24 | for a signed-in user the device reload sends exactly one request, the GET of that user's devices, and dispatches the list it settles on. |
| UseApi.DeleteReloads | frontend/src/hooks/useApi.js:189-201 | with a user, a successful deletion makes exactly two requests. The second is the GET of the user's devices, and the list it settles on is stored. |
| UseApi.GuardedLoad | frontend/src/hooks/useApi.js:231-244 | a guarded load performs exactly `GuardedLoadSpec`. |
| UseApi.GetProfileHook | frontend/src/hooks/useApi.js:231-244 | `getProfile` is the guarded load of the profile. |
| UseApi.GetBalancesHook | frontend/src/hooks/useApi.js:282-295 | `getBalances` is the guarded load of the balances. |
| UseApi.GetTransferHistoryHook | frontend/src/hooks/useApi.js:322-335 | `getTransferHistory` is the guarded load of the history. |
| UseApi.GuardedLoadProperties | frontend/src/hooks/useApi.js:231-244 | with no user or token it returns nothing and does nothing. Otherwise it makes one GET. Success returns the data silently; failure emits one error notice with the load's text and rethrows. |
| UseApi.GuardedMutation | frontend/src/hooks/useApi.js:246-269 | a guarded mutation performs exactly `GuardedMutationSpec`. |
| UseApi.UpdateProfileHook | frontend/src/hooks/useApi.js:246-269 | `updateProfile` is the guarded profile PUT. |
| UseApi.TransferAssetsHook | frontend/src/hooks/useApi.js:297-320 | `transferAssets` is the guarded transfer POST. |
| UseApi.GuardedMutationProperties | frontend/src/hooks/useApi.js:246-269 | with no user or token it throws and does nothing. Otherwise it makes one request and then emits one notice: success with the data, or the error's message with the same error rethrown. |
| UseApi.ClearAllNotifications | frontend/src/hooks/useApi.js:357-361 | it dispatches one removal per snapshot entry, in order. |
| UseApi.ClearAllNotificationsEmpties | frontend/src/hooks/useApi.js:357-361 | applied to the state they were read from, the removals empty the queue and change nothing else. |
| UseApi.ClearError | frontend/src/hooks/useApi.js:376-378 | `clearError` dispatches exactly one clear of its key. |
| UseApi.ClearAllErrors | frontend/src/hooks/useApi.js:380-384 | it dispatches one clear per key of the snapshot, each key once. |
| UseApi.ClearAllErrorsEmpties | frontend/src/hooks/useApi.js:380-384 | applied to the state they were read from, the clears empty the error map and change nothing else. |
| Django.ConstraintFailed | backend/authentication/models.py:20-21 | a violated column constraint raises IntegrityError whose message ends with the column and starts with `UNIQUE` exactly for a uniqueness violation. |
| UserModels.Insert | backend/authentication/models.py:19-21 | a new row is stored under the next id if and only if its `clerk_id` and email are both unused. Otherwise an IntegrityError leaves the table unchanged. It keeps the table well formed. |
| UserModels.Save | backend/authentication/models.py:19-21 | saving a loaded row replaces it in place, keeping its id, unless another row holds its `clerk_id` or email. It keeps the table well formed. |
| UserModels.FindByClerkId | backend/authentication/models.py:20 | the lookup finds a row holding the `clerk_id`, and finds none exactly when no row does. |
| UserModels.FindByClerkIdUnique | backend/authentication/models.py:20 | in a well-formed table the row found is the only one with that `clerk_id`. |
| UserModels.Deactivated | backend/authentication/views.py:48 | only `is_active` changes, and only on rows with the id. No row is added or removed. |
| UserModels.DeactivatedProperties | backend/authentication/views.py:46-49 | deactivating keeps the table well formed and is idempotent. |
| UserModels.UserTable.Create | backend/authentication/models.py:19-21 | the new table and the result are those of `Insert`, and the table stays valid. |
| UserModels.UserTable.Update | backend/authentication/models.py:19-21 | the new table and the result are those of `Save`, and the table stays valid. |
| UserModels.UserTable.Deactivate | backend/authentication/views.py:48 | the rows become `Deactivated`, and the table stays valid. |
| UserModels.NewUserDefaults | backend/authentication/models.py:22-32 | a user built without extra fields is active, not staff, not superuser, and has blank names, image and phone. |
| UserModels.NormalizeEmailIdempotent | backend/authentication/models.py:9 | normalising an email twice is normalising it once. |
| UserModels.SetDefault | backend/authentication/models.py:15-16 | `setdefault` keeps a supplied value and otherwise uses the default. |
| UserModels.StoreNewUser | backend/authentication/models.py:6-12 | once the address is normalised, a falsy `clerk_id` raises ValueError and leaves the table unchanged; otherwise the new user row is saved. |
| UserModels.CreateUserStep | backend/authentication/models.py:6-12 | a falsy `clerk_id` raises ValueError and leaves the table unchanged; otherwise the row is stored with the normalised address. |
| UserModels.CreateUserProperties | backend/authentication/models.py:6-12 | with the normalised address, `create_user` succeeds exactly when the id is truthy and neither the id nor the email is taken. A success appends one row under a new id, holding that id, that email and the supplied fields, with defaults for the rest. |
| UserModels.CreateUserKeepsTable | backend/authentication/models.py:6-12 | `create_user` keeps the table well formed, and a failed call leaves the rows as they were. |
| UserModels.CreateSuperuserFlags | backend/authentication/models.py:14-17 | `create_superuser` makes a staff superuser unless the caller passed a flag explicitly, and then the caller's value stands. |
| UserModels.CreateUser | backend/authentication/models.py:6-12 | the method's table and result are those of `CreateUserStep`. |
| UserModels.CreateSuperuser | backend/authentication/models.py:14-17 | the method's table and result are those of `CreateUserStep` with the superuser defaults. |
| ClerkBackend.Split | backend/authentication/backends.py:17 | `split(' ')` yields at least one piece and no piece contains the separator. |
| ClerkBackend.SplitJoin | backend/authentication/backends.py:17 | joining the pieces of a split gives the text back. |
| ClerkBackend.BearerToken | backend/authentication/backends.py:13-17 | a token is found if and only if the header is present and starts with `Bearer `. It is the longest space-free text after the prefix. |
| ClerkBackend.BearerSecondPiece | backend/authentication/backends.py:17 | for a `Bearer ` header the second piece of the split is the token. |
| ClerkBackend.BearerTokenEmpty | backend/authentication/backends.py:17 | `Bearer ` gives the empty token. |
| ClerkBackend.BearerTokenSecondField | backend/authentication/backends.py:17 | `Bearer a b` gives `a`. |
| ClerkBackend.BearerTokenOtherSchemes | backend/authentication/backends.py:14 | a missing header, another scheme and lower-case `bearer` give no token. |
| ClerkBackend.GetOrCreateStep | backend/authentication/backends.py:48-70 | a token without `sub` raises. Otherwise the result is the row the `sub` names, and the table stays well formed. |
| ClerkBackend.GetOrCreateNew | backend/authentication/backends.py:52-60 | a new `clerk_id` adds exactly one active, non-staff row that holds the claims, with blank defaults. It fails, adding nothing, only when the email is taken. |
| ClerkBackend.GetOrCreateExisting | backend/authentication/backends.py:62-68 | a known `clerk_id` adds no row. The email is overwritten (possibly with blank), names and image are kept when the claim is absent, and nothing else changes. |
| ClerkBackend.GetOrCreateIdempotent | backend/authentication/backends.py:48-70 | repeating the call with the same claims changes nothing further and returns the same user. |
| ClerkBackend.GetOrCreateUser | backend/authentication/backends.py:48-70 | the method's table and result are those of `GetOrCreateStep`. |
| ClerkBackend.InvalidToken | backend/authentication/backends.py:30-31 | any exception becomes AuthenticationFailed, with the message `Invalid token: ` followed by the original. |
| ClerkBackend.AuthenticateAsWritten | backend/authentication/backends.py:12-31 | as written: a request without a Bearer header gets None, and every Bearer request fails with the NameError wrapped. |
| ClerkBackend.AsWrittenNeverAuthenticates | backend/authentication/backends.py:19-31 | as written, no request ever yields a user. |
| ClerkBackend.AuthenticateStep | backend/authentication/backends.py:12-31 | without the unbound name: no Bearer header gives None and leaves the table unchanged. A failed verification raises AuthenticationFailed, also with the table unchanged. |
| ClerkBackend.AuthenticateIff | backend/authentication/backends.py:12-31 | a request authenticates if and only if it has a Bearer token that verifies and whose user can be found or stored. The user is the one the token's `sub` names. |
| ClerkBackend.FirstSignInDiffers | backend/authentication/backends.py:21 | for `Bearer t0` with a verifying token on an empty table, the corrected view returns the new user and the as-written one raises. The verifying token assumes a working `verify_clerk_token` (see `DefinedAudienceDiffers`). |
| ClerkBackend.VerifyClerkTokenAsWritten | backend/authentication/backends.py:33-46 | as written, no token decodes: a failed key-set fetch raises its own error, and a fetched key set is followed by AttributeError on the undefined audience setting. |
| ClerkBackend.VerifyClerkToken | backend/authentication/backends.py:33-46 | with the audience defined, a failed fetch raises, and otherwise the decoder's verdict for the token, the key set and the audience is the result. |
| ClerkBackend.UndefinedAudienceNeverAuthenticates | backend/authentication/backends.py:24-43 | even without the unbound name, every Bearer request fails with AuthenticationFailed, the table is unchanged, and a fetched key set gives `Invalid token: ` plus the AttributeError message. |
| ClerkBackend.DefinedAudienceDiffers | backend/authentication/backends.py:43 | for `Bearer t0` whose token decodes for the configured audience, defining the setting makes the first sign-in succeed where the as-written verification raises. |
| ClerkBackend.Authenticate | backend/authentication/backends.py:12-31 | the method's table and result are those of `AuthenticateStep`. |
| ClerkWebhook.CompareDigest | backend/authentication/views.py:61 | with a missing or non-ASCII signature it raises TypeError. Otherwise it returns whether the strings are equal. |
| ClerkWebhook.HexIsAscii | backend/authentication/views.py:55-59 | a hex digest is ASCII. |
| ClerkWebhook.VerifySignature | backend/authentication/views.py:53-61 | it returns true if and only if the secret is set and the signature is the hex HMAC. It raises exactly for an unset secret or a missing or non-ASCII signature. |
| ClerkWebhook.PrimaryEmail | backend/authentication/views.py:29 | the first address, or blank when there is no list or no address. An empty list raises IndexError. |
| ClerkWebhook.UpsertStep | backend/authentication/views.py:27-44 | `created` holds if and only if no row had the id, and the table stays well formed. |
| ClerkWebhook.SyncStep | backend/authentication/views.py:17-51 | a failed or raising signature check leaves the table unchanged, and 401 is the reply exactly when the check returns false. |
| ClerkWebhook.UpsertProperties | backend/authentication/views.py:27-44 | a row is added if and only if the id is new, and then only one. The id's row then holds the payload's four synced columns, blank when absent. |
| ClerkWebhook.UpdateKeepsStanding | backend/authentication/views.py:39-42 | an update keeps the row's id, its activity and its permissions. |
| ClerkWebhook.UpsertReplay | backend/authentication/views.py:39-42 | replaying an upsert changes nothing and reports `created` false. |
| ClerkWebhook.DeleteOnlyDeactivates | backend/authentication/views.py:46-49 | `user.deleted` removes and adds no row, changes only the activity of rows with the id, and is idempotent. |
| ClerkWebhook.OtherEventsIgnored | backend/authentication/views.py:51 | any other event type is answered `ignored` and changes nothing. |
| ClerkWebhook.SyncUser | backend/authentication/views.py:17-51 | the method's table and reply are those of `SyncStep`. |
| WebAuthnModels.ChallengeTypeName | backend/webauthn_mfa/models.py:22 | the challenge type is one of `register` and `verify`, and the map is one to one. |
| WebAuthnModels.NewCredential | backend/webauthn_mfa/models.py:5-13 | a new credential has sign count 0 and name `Security Key` by default, a blank device type, the creation time and no use yet. |
| WebAuthnModels.InsertByAgeAdds | backend/webauthn_mfa/models.py:17 | an ordered insertion adds exactly the one credential, as a multiset. |
| WebAuthnModels.InsertByAgeSorted | backend/webauthn_mfa/models.py:17 | an insertion into a newest-first list keeps it newest first. |
| WebAuthnModels.ByAge | backend/webauthn_mfa/models.py:17 | the ordering is newest first and a permutation of the input. |
| WebAuthnModels.CredentialsOf | backend/webauthn_mfa/models.py:17 | a user's credentials are listed newest first. They are exactly the user's rows, with the filter's multiplicities. |
| WebAuthnModels.CredentialIds | backend/webauthn_mfa/views.py:34-37 | the ids, position by position. |
| WebAuthnModels.HasCredentialsIff | backend/webauthn_mfa/views.py:119-121 | `exists()` holds if and only if the user's list is non-empty. |
| WebAuthnModels.CascadeCredentials | backend/webauthn_mfa/models.py:6 | deleting a user keeps exactly the other users' credentials. |
| WebAuthnModels.CascadeChallenges | backend/webauthn_mfa/models.py:20 | deleting a user keeps exactly the other users' challenges. |
| WebAuthnModels.CascadeProperties | backend/webauthn_mfa/models.py:6-20 | after the cascade the user owns nothing and both unique columns stay unique. |
| WebAuthnViews.FindLive | backend/webauthn_mfa/views.py:69-77 | the row found is the user's, of that value and type, and strictly before expiry. None is found exactly when no such row exists or no challenge was posted. |
| WebAuthnViews.FindCredential | backend/webauthn_mfa/views.py:172-179 | the row found is the user's with that id. None is found exactly when the user has no such credential. |
| WebAuthnViews.WithoutKeepsChallengesUnique | backend/webauthn_mfa/views.py:99 | deleting the used challenge keeps the values unique, and the value is no longer stored. |
| WebAuthnViews.IssuedChallenge | backend/webauthn_mfa/views.py:25-30 | a stored challenge belongs to the user, has its type and expires five minutes after `now`. |
| WebAuthnViews.RegisterBeginStep | backend/webauthn_mfa/views.py:17-57 | it stores exactly one `register` challenge, or raises if the value repeats. The options name the user, id and display name and exclude the user's credentials. Credentials are untouched. |
| WebAuthnViews.VerifyBeginStep | backend/webauthn_mfa/views.py:114-150 | with no credentials it replies 400 and stores nothing. Otherwise it stores exactly one `verify` challenge and allows the user's credentials. |
| WebAuthnViews.OptionsListOwnCredentials | backend/webauthn_mfa/views.py:33-37 | an id is in the options' list if and only if it belongs to one of the user's own credentials. |
| WebAuthnViews.RegisterCompleteStep | backend/webauthn_mfa/views.py:61-110 | the view never raises. Any change to the tables comes with status 200. Without a live `register` challenge it replies 400 with nothing changed. Uniqueness is kept. |
| WebAuthnViews.RegistrationSucceeds | backend/webauthn_mfa/views.py:88-105 | a verified ceremony with a new id adds exactly one credential: the user's, with the verifier's id, key and count, the posted name or `Security Key`, and not yet used. It deletes exactly the used challenge. |
| WebAuthnViews.RegistrationFailureKeepsChallenge | backend/webauthn_mfa/views.py:106-110 | a rejected or raising verification, or a taken id, replies 400 and leaves both tables unchanged. |
| WebAuthnViews.VerifyCompleteStep | backend/webauthn_mfa/views.py:154-214 | any change to the tables comes with status 200. Without a live `verify` challenge it replies 400 with nothing changed. Uniqueness is kept. |
| WebAuthnViews.UnknownCredentialKeepsChallenge | backend/webauthn_mfa/views.py:171-179 | a credential id the user does not own gets 404, and the challenge stays. |
| WebAuthnViews.AuthenticationFailureKeepsChallenge | backend/webauthn_mfa/views.py:181-214 | an assertion the verifier rejects gets 400 `Verification failed`, one whose verification raises gets 400 with the exception's message, and both tables stay as they were. |
| WebAuthnViews.ChallengeConsumedOnlyOnSuccess | backend/webauthn_mfa/views.py:154-214 | the challenge table changes only when a live challenge, one of the user's own credentials and a verified assertion come together, and the reply is then 200. |
| WebAuthnViews.AuthenticationSucceeds | backend/webauthn_mfa/views.py:192-209 | on a verified assertion only the used credential changes (new count, last use now), and exactly the used challenge is deleted. |
| WebAuthnViews.IssuedChallengeWindow | backend/webauthn_mfa/views.py:25-30 | an issued challenge is live for completion if and only if less than five minutes have passed, and it can never be used for `verify`. |
| WebAuthnViews.RegistrationChallengeSingleUse | backend/webauthn_mfa/views.py:98-99 | after a successful registration, the same challenge is refused with 400 and nothing changes. |
| WebAuthnViews.AuthenticationChallengeSingleUse | backend/webauthn_mfa/views.py:198-199 | after a successful authentication, the same challenge is refused with 400 and nothing changes. |
| WebAuthnViews.MfaStore.StoreChallenge | backend/webauthn_mfa/views.py:25-30 | the row is stored if and only if its value is new. Credentials are untouched. |
| WebAuthnViews.MfaStore.RegisterBegin | backend/webauthn_mfa/views.py:17-57 | the method's tables and reply are those of `RegisterBeginStep`, and uniqueness is kept. |
| WebAuthnViews.MfaStore.VerifyBegin | backend/webauthn_mfa/views.py:114-150 | the method's tables and reply are those of `VerifyBeginStep`. |
| WebAuthnViews.MfaStore.RegisterComplete | backend/webauthn_mfa/views.py:61-110 | the method's tables and reply are those of `RegisterCompleteStep`. |
| WebAuthnViews.MfaStore.VerifyComplete | backend/webauthn_mfa/views.py:154-214 | the method's tables and reply are those of `VerifyCompleteStep`. |
| AdminGate.HasPermission | backend/authentication/admin.py:32-44 | it is false without the base permission. With it, the login path is always allowed, and any other path is allowed if and only if the session is verified. |
| AdminGate.AdminView | backend/authentication/admin.py:59-60 | Django's wrapper runs the view exactly when `has_permission` holds, and otherwise redirects to the login page with the full path as `next` (a refused logout goes to the index). |
| AdminGate.StaffLoginLoops | backend/authentication/admin.py:40-60 | as written, a staff member whose session is unverified, starting at the login, verification or completion page, is still being redirected after any number of hops, always to the login or the verification page; no view ever runs. |
| AdminGate.HasPermissionCorrected | backend/authentication/admin.py:32-44 | corrected, the two ceremony paths are exempt like the login path; on every other path it agrees with `HasPermission`. |
| AdminGate.CorrectedGateReachesCeremony | backend/authentication/admin.py:32-82 | corrected, the login page leads an unverified staff session to the verification page, which runs. Every page other than the login and the two ceremony views is still refused to that session. |
| AdminGate.CorrectedCompletionNeedsNoCeremony | backend/authentication/admin.py:32-96 | corrected, the completion view also runs for an unverified staff session, and one POST to it opens every admin page. No security-key ceremony is involved. |
| AdminGate.LoginRedirect | backend/authentication/admin.py:46-54 | an authenticated staff user goes to the verify page and everyone else to `/sign-in`. |
| AdminGate.VerifyView | backend/authentication/admin.py:64-82 | a user without credentials is redirected to `/security` with the error message. Otherwise the page is rendered. |
| AdminGate.UserAdminHasAddPermission | backend/authentication/admin.py:116-118 | users can never be added through the admin. |
| AdminGate.GateStep | backend/authentication/admin.py:20-26 | an unverified session stores the full path and is redirected. A verified one runs the view with the session unchanged. The decorator is applied to no view in the source. |
| AdminGate.VerifyCompleteAsWrittenStep | backend/authentication/admin.py:84-96 | as written, a POST sets the flag and then raises. Any other method replies `Invalid request` with the session unchanged. |
| AdminGate.VerifyCompleteStep | backend/authentication/admin.py:84-96 | on POST it sets the flag and the time, removes the waiting URL and returns it (or the admin index). Other keys are untouched. Any other method changes nothing. |
| AdminGate.GateThenCompleteReturnsToPage | backend/authentication/admin.py:20-96 | for a view the decorator would guard, a page turned away is returned by the corrected completion, the memory is cleared, and the gate and every admin path then open. |
| AdminGate.FreshSessionRefused | backend/authentication/admin.py:32-44 | a session that never verified is refused every non-login admin page, and the gate records the path. |
| AdminGate.AsWrittenNeverReturnsToPage | backend/authentication/admin.py:88-92 | as written, every POST to the completion raises whatever the session holds, keeps a waiting URL if there was one, and sets the flag only in the request's session. The corrected completion replies with a URL. |
| AdminGate.Session.WebAuthnRequired | backend/authentication/admin.py:20-26 | the method's session and outcome are those of `GateStep`. |
| AdminGate.Session.VerifyCompleteAsWritten | backend/authentication/admin.py:86-96 | the method's session and result are those of `VerifyCompleteAsWrittenStep`. |
| AdminGate.Session.VerifyComplete | backend/authentication/admin.py:86-96 | the method's session and result are those of `VerifyCompleteStep`. |

## Left out

- Network calls, the browser's WebAuthn API, `session.getToken()`, `Math.random()` and clocks are inputs. Each one's possible results are a datatype, so every outcome is covered, but no real behaviour is modelled.
- `setTimeout` expiry is modelled only as "a removal of this id is scheduled if and only if the duration is positive". Elapsed time is not modelled.
- Notification ids are not shown to be unique, because `Date.now() + Math.random()` does not guarantee it.
- Overlapping token refreshes are not ordered: there is no cancellation, so the last promise to resolve wins. The model covers one refresh at a time.
- `frontend/src/services/api.js` (an axios wrapper with a browser redirect on 401) is not part of this model. Neither are the JSX components.
- Clerk's JWKS fetch is an input and the RS256 decode is an oracle. `authenticate` takes the whole verification as one oracle, which stands for `VerifyClerkToken` with a defined audience. Line 43's undefined setting is recorded under Findings.
- The `webauthn` library's option generators and response verifiers are oracles. The model records the arguments the views pass to the generators, not the options built; the verdicts are inputs.
- Base64 coding of credential ids, keys and challenges is not modelled. Ids and keys are base64 text throughout.
- HMAC-SHA256 is an oracle giving lower-case hex text.
- A view calls `timezone.now()` up to three times; the model uses one reading per call.
- The ORM is in-memory tables without concurrency. Two racing `get_or_create` or `update_or_create` calls are not modelled.
- Column lengths (`max_length`) and the 32-bit range of `sign_count` are not enforced, since Django does not validate them on `save()`.
- User timestamps (`created_at`, `updated_at`, `last_synced_at`), the password and the permission tables are not part of this model.
- AdminGate.VerifyCompleteStep: sets `webauthn_verified` on any POST without checking a WebAuthn assertion, as the completion view does (the view trusts the browser to call it only after a verified ceremony). The model does not tie it to `WebAuthnViews.VerifyCompleteStep`, so it does not promise that admin pages open only after a ceremony, and neither does the source.
- AppContext.Apply: a `SET_WEBAUTHN_DEVICES` action whose payload is `null` throws a TypeError when `action.payload.devices` is read. The model's payload is a record whose `devices` is present or absent, so that throw is not covered.
- Console logging (`console.error` and `console.log` in the service layer and the hooks) is not modelled, since it has no effect on state or requests.
- ApiService.ErrorMessageOf: an error body is either unparsable or an object whose `message` is text or absent. A JSON `null` body, for which `errorData.message` throws a TypeError whose text becomes the stored error, is not covered. Neither is a non-text `message` such as `42`, which the source turns into the text `42`.
- JSON `null` and values of unexpected JSON types in request bodies are not modelled; an absent key is `None`. A posted `"name": null` in `register_complete`, which would fail the NOT NULL constraint and reply 400, is therefore not covered.
- Session persistence is not modelled. The model describes the request's session dictionary. Django's session middleware does not save the session of a 5xx response, so the flag that the as-written `webauthn_verify_complete` sets may never be saved.
- AdminGate.GateStep: `webauthn_required` decorates no view in the source, so nothing on the site stores `admin_redirect_url`. The gate and `GateThenCompleteReturnsToPage` describe the decorator's own behaviour, not a path the deployed site takes.
- AdminGate.StaffHop: only requests of a signed-in, active staff member are walked. The `?next=` query of the login redirect is dropped, since `has_permission` compares the path alone.
- `backend/webauthn_mfa/urls.py` routes to views that `views.py` does not define. Only the four defined views are modelled, and the front end's paths are not linked to back-end handlers.
- `backend/authentication/middleware.py`, the settings, the URL files, the serializers, `current_user` and the `create_test_superuser` command are thin wrappers or configuration.
- UserModels.NormalizeEmail: lower-cases ASCII letters only, where Python's `str.lower` also folds other letters, because the model has no Unicode case tables.
- WebAuthnModels.ByAge: credentials created at the same instant are listed in an order the model chooses, because the schema leaves that order unspecified.
- AdminGate.HasPermission: returns the truthiness of the stored flag, not the stored value itself, because that is how Django reads it.

## Findings

| source | as written | input that shows it | evidently intended | confidence | as-written member | corrected member |
|---|---|---|---|---|---|---|
| backend/authentication/backends.py:21 | `clerk.api_key = ...` runs first in the `try`, but the module only imports `Clerk`, so `clerk` is unbound and every Bearer request raises `NameError`, reported as `AuthenticationFailed('Invalid token: ...')` | header `Bearer t0` whose token verifies to `sub` `user_1` on an empty table (lemma `ClerkBackend.FirstSignInDiffers`) | the token is verified and the user is found or created and returned | not executed | ClerkBackend.AuthenticateAsWritten | ClerkBackend.AuthenticateStep |
| backend/authentication/admin.py:89 | `timezone` is `datetime.timezone`, which has no `now`, so a POST raises right after setting `webauthn_verified` and before popping `admin_redirect_url` | any POST to the completion view, once the view can be reached (next row); lemma `AdminGate.AsWrittenNeverReturnsToPage` | record the time, pop the waiting URL or take the index, and reply with it (lemma `AdminGate.GateThenCompleteReturnsToPage`) | not executed | AdminGate.VerifyCompleteAsWrittenStep | AdminGate.VerifyCompleteStep |
| backend/authentication/backends.py:43 | `settings.CLERK_PUBLISHABLE_KEY` is not defined by the settings (they define `CLERK_FRONTEND_API_KEY`), so once the key set is fetched every verification raises AttributeError, reported as `Invalid token: ...`, even with line 21 repaired | header `Bearer t0` whose token decodes for the configured audience, on an empty table (lemmas `ClerkBackend.UndefinedAudienceNeverAuthenticates` and `ClerkBackend.DefinedAudienceDiffers`) | the token is decoded against a defined audience setting | not executed | ClerkBackend.VerifyClerkTokenAsWritten | ClerkBackend.VerifyClerkToken |
| backend/authentication/admin.py:40-60 | both ceremony views are wrapped by `admin_view`, which asks `has_permission` first, and `has_permission` exempts only the login path from the verified-session test; only the completion view sets the flag | a signed-in staff member with an unverified session opening `/admin/login/`: login sends the browser to `/admin/webauthn-verify/`, the wrapper sends it back to the login page, for ever (lemma `AdminGate.StaffLoginLoops`) | the ceremony paths are exempt, so the verification page can be reached and shown (lemma `AdminGate.CorrectedGateReachesCeremony`). Because the completion checks no assertion, the exemption also lets a bare POST open the site (lemma `AdminGate.CorrectedCompletionNeedsNoCeremony`) | not executed | AdminGate.HasPermission | AdminGate.HasPermissionCorrected |
