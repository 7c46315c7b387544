# sleeping-bag-locator in Dafny

A Dafny model of the core of sleeping-bag-locator, a small Rust web backend. The backend keeps
an inventory of sleeping bags (items with a name and a location) and of users. It signs people
in through GitHub's OAuth2 flow and keeps their sessions in a session store.

The model covers six areas:

- the `Item` and `User` entities with their validating builders;
- the in-memory and mocked DAOs for both;
- the pagination builder and its HTTP query and header conversions;
- the tables that turn DAO, builder and authentication errors into HTTP responses;
- the authentication handlers `login`, `auth_callback` and `logout`, and the `UserInfo` extractor that guards protected routes;
- the older "legacy" DAO generation (`Entity`, `HashMapDao`, `MockedDao`).

The authentication handlers come in two source variants: typed errors, and generic over the store.

Everything is functional:

- Entities are immutable datatypes.
- A DAO is a `map<Uuid, Item>` (or `map<Uuid, User>`) threaded through each operation, which returns its result together with the map it leaves.
- The session store is a `map<string, Session>`, where a session maps entry names to values.
- Each handler returns its outcome, the store it leaves, and the external calls it made, in order.

Nondeterminism is passed in as parameters or "oracle" records:

- the clock (`now`);
- fresh UUIDs;
- the CSRF token;
- store answers (load errors, destroy errors, the key a save returns);
- the OAuth code exchange;
- the GitHub user-info fetch.

Modules, by file:

| file | module | models |
|---|---|---|
| wrappers.dfy | Wrappers | `Option`, `Result`, and `Run` (a result plus the state after the call) |
| text.dfy | Text | UTF-8 byte length of a string, decimal rendering and parsing, `split_once`, hex digits |
| common.dfy | Common, Validation | UUIDs, timestamps, the shared 128-byte text rule |
| items.dfy | Items | `Item`, `ItemBuilder`, `build` |
| item_params.dfy | ItemMutations | create/update params, their builders, `try_into`, `try_update` |
| pagination.dfy | Pagination | `Pagination`, `PaginationBuilder` |
| listing.dfy | Listing | `list`: sort by update time, skip, take |
| items_dao.dfy | ItemsDao | `ItemsHashMapDao`, `ItemsMockedDao`, the item DAO errors |
| users.dfy | Users, UserErrors | `User::new`, `set_name`, params, user DAO errors |
| users_dao.dfy | UsersDao | `UsersHashMapDao`, `UsersMockedDao` |
| http_common.dfy | HttpCommon | `AppError`, header and pagination conversions |
| http_items.dfy | HttpItems | item error tables, `HttpItem`, HTTP params |
| http_users.dfy | HttpUsers | user error tables, `HttpUser`, auth type conversions |
| sessions.dfy | AuthSession | session store, cookies, store primitives, responses |
| auth_errors.dfy | AuthErrors | typed authentication errors and their 500 mapping |
| auth_handlers.dfy | AuthHandlers | typed `auth_callback`, `login`, `logout` |
| auth_generic.dfy | AuthGeneric | generic `auth_callback`, `login`, `logout`, the `UserInfo` extractor |
| auth_protocol.dfy | AuthProtocol | agreement of the two variants, end-to-end protocol properties, corrected session lookup |
| legacy.dfy | Legacy | the legacy entity, params, pagination, DAOs and status tables |

The model follows the code in three places a reader might not expect:

- A failure to destroy the pending session aborts `auth_callback` before the CSRF comparison (`CsrfTokenSessionDestructionError`). It does not merely get logged.
- Every callback error, including a malformed cookie, is a 500 with an empty body. None of them is a 422.
- The pending session is destroyed only once its token has been read. When loading fails, when the session is absent, or when it has no readable token, the session stays in the store.

## Model

| member | source | states |
|---|---|---|
| Items.DefaultBuilder | src/dao/items/dtos/item.rs:70-81 | the default builder has no name and no location, a fresh id, and equal creation and update times |
| Items.Build | src/dao/items/dtos/item.rs:116-148 | success exactly when name and location are set, non-empty and at most 128 UTF-8 bytes and created ≤ updated; otherwise the first failing check in the order name-set, location-set, name, location, times; too-long errors carry the value, the time error carries both times; on success every field comes from the builder |
| Items.BuildRoundTrip | src/dao/items/dtos/item.rs:141-147 | building from an item's own fields accepts exactly the valid items and returns the same item |
| Items.BoundaryLength | src/dao/items/dtos/item.rs:120-125 | a 128-byte name and location are accepted; one byte more gives `NameTooLong` with that name |
| ItemMutations.BuildParams | src/dao/items/dtos/create.rs:69-76 | success exactly when both fields are set, with those fields; `NameNotSet` whenever the name is missing, `LocationNotSet` only when the name is set; the update-params builder (update.rs:84-91) and the legacy `ParamsBuilder`/`MutableParamsBuilder` (dao/params.rs:54-61, 114-119) behave the same |
| ItemMutations.ParamsRoundTrip | src/dao/items/dtos/create.rs:110-124 | setting both fields and building gives back exactly those params, for the create, update and legacy builders alike |
| ItemMutations.NewItem | src/dao/items/dtos/create.rs:26-36 | a fresh item with the params' fields and created == updated == now, or the builder's name/location error (name first); presence and time errors cannot occur; the update params convert the same way (update.rs:31-40) |
| ItemMutations.TryUpdate | src/dao/items/dtos/update.rs:17-28 | success exactly on valid fields and created ≤ now; keeps id and creation time, takes both fields from the params, sets updated = now; otherwise the same error `build` reports |
| ItemMutations.TryUpdatePreservesValidity | src/dao/items/dtos/update.rs:17-28 | a valid item stays valid under update and changes only name, location and update time |
| Listing.EnumerateKeys | src/dao/items/impls/hash_map.rs:46 | the loop yields every key of the map exactly once, i.e. one iteration order of `values()` |
| Listing.InsertByUpdate | src/dao/items/impls/hash_map.rs:47 | inserting a key into a list sorted by update time keeps it sorted and distinct and adds exactly that key |
| Listing.List | src/dao/items/impls/hash_map.rs:44-56 | the page is `skip((page-1)*limit).take(limit)` of some iteration order sorted ascending by update time; at most `limit` entries, all stored; empty map gives empty page |
| Listing.ConsecutivePages | src/dao/items/impls/hash_map.rs:51-52 | two consecutive pages are adjacent slices of the same order: nothing skipped, nothing repeated |
| Listing.ListAsWritten | src/dao/items/impls/hash_map.rs:51 | `list` with the offset computed in wrapping 64-bit arithmetic |
| Listing.WrappedOffsetReturnsFirstPage | src/dao/items/impls/hash_map.rs:51 | page 2^63+1 with limit 2 over a one-item map: as written the page holds the item, with the exact offset it is empty |
| ItemsDao.HashMapList | src/dao/items/impls/hash_map.rs:44-56 | `list` never fails and returns the window at the exact offset `(page-1)*limit` of the stored items sorted by update time (the wrap-around is under Left out and Findings) |
| ItemsDao.HashMapCreate | src/dao/items/impls/hash_map.rs:58-67 | success exactly on valid params and a vacant id, inserting only that entry; invalid params give `InvalidParams`, an occupied id `AlreadyExists{id}`; failures leave the map unchanged |
| ItemsDao.HashMapGet | src/dao/items/impls/hash_map.rs:69-75 | the stored item, or `NoSuchEntity{id}` exactly when absent |
| ItemsDao.HashMapUpdate | src/dao/items/impls/hash_map.rs:77-90 | missing id gives `NoSuchEntity`, invalid params give `InvalidParams`, both with the map unchanged; success replaces only that entry with the updated item and returns it |
| ItemsDao.HashMapDelete | src/dao/items/impls/hash_map.rs:92-97 | removes exactly that key; a missing id gives `NoSuchEntity{id}` |
| ItemsDao.Health | src/dao/items/impls/hash_map.rs:99-101 | always succeeds; it also stands for every other `health`, of the user DAOs and of the legacy `HashMapDao` and `MockedDao` (dao/impls/hash_map.rs:100-102, dao/impls/mocked.rs:69-71), which all return `Ok(())` |
| ItemsDao.CreateThenGet | src/dao/items/impls/hash_map.rs:111-134 | after a create, `get` of the new id returns the created item and every other id reads as before |
| ItemsDao.UpdateThenGet | src/dao/items/impls/hash_map.rs:169-194 | after an update, `get` returns the updated item and every other id reads as before |
| ItemsDao.DeleteThenGet | src/dao/items/impls/hash_map.rs:148-167 | after a delete, `get` and a second delete fail with `NoSuchEntity`; other ids are untouched |
| ItemsDao.WritesPreserveValidity | src/dao/items/impls/hash_map.rs:58-97 | if every stored item is valid, so is every item after create, update or delete |
| ItemsDao.MockedList | src/dao/items/impls/mocked.rs:25-33 | exactly one item, "Sleeping Bag" at "Calgary, AB", whatever the pagination |
| ItemsDao.MockedCreate | src/dao/items/impls/mocked.rs:35-39 | the validated fresh item, or `InvalidParams` |
| ItemsDao.MockedGet | src/dao/items/impls/mocked.rs:41-50 | the fixed item under the requested id; never fails |
| ItemsDao.MockedUpdate | src/dao/items/impls/mocked.rs:52-63 | `try_update` applied to the fixed item with the requested id; invalid params give `InvalidParams` |
| ItemsDao.MockedDelete | src/dao/items/impls/mocked.rs:65-67 | always succeeds; it also stands for the legacy `MockedDao::delete` (dao/impls/mocked.rs:65-67), which ignores the id in the same way |
| Users.New | src/dao/users/dtos/entity.rs:73-110 | success exactly on a valid name and external id and created ≤ updated; checks in the order empty name, long name, empty external id, long external id, times; too-long errors carry the value; on success all six fields are stored unchanged |
| Users.NewRoundTrip | src/dao/users/dtos/entity.rs:102-109 | `new` from a user's own fields returns that user exactly when it is valid |
| Users.SetName | src/dao/users/dtos/entity.rs:120-132 | a valid name replaces the name and sets updated = now, all else unchanged; an empty or too-long name gives its error and leaves the user completely unchanged |
| Users.SetNameValidity | src/dao/users/dtos/entity.rs:128-131 | a rename keeps a valid user valid exactly when now ≥ created, because `set_name` does not re-check the time order |
| Users.UserFromParams | src/dao/users/dtos/create.rs:39-54 | a fresh user with the params' name, auth type and external id and created == updated == now, or `new`'s name/external-id error |
| Users.TryUpdate | src/dao/users/dtos/update.rs:22-26 | `set_name` with the params' name: on success the name is the params' name; id, auth type, external id and creation time never change; on failure nothing changes |
| UserErrors.FromCreateValidation | src/dao/users/errors.rs:17-22 | every create validation error becomes `InvalidParams` |
| UserErrors.FromUpdateValidation | src/dao/users/errors.rs:43-48 | every update validation error becomes `InvalidParams` |
| UsersDao.HashMapCreate | src/dao/users/impls/hash_map.rs:34-43 | success exactly on valid params and a vacant id, inserting only that entry; `InvalidParams` or `AlreadyExists{id}` otherwise, with the map unchanged |
| UsersDao.HashMapGet | src/dao/users/impls/hash_map.rs:45-51 | the stored user, or `NoSuchEntity{id}` exactly when absent |
| UsersDao.HashMapUpdate | src/dao/users/impls/hash_map.rs:53-62 | missing id gives `NoSuchEntity`; an invalid name gives `InvalidParams` with the stored user unchanged; success renames only that entry and returns it |
| UsersDao.HashMapDelete | src/dao/users/impls/hash_map.rs:64-69 | removes exactly that key; a missing id gives `NoSuchEntity{id}` |
| UsersDao.Health | src/dao/users/impls/hash_map.rs:71-73 | always succeeds |
| UsersDao.CreateThenGet | src/dao/users/impls/hash_map.rs:83-126 | after a create, `get` returns the created user and other ids read as before |
| UsersDao.UpdateThenGet | src/dao/users/impls/hash_map.rs:145-182 | after an update, `get` returns what the update returned; id, auth type, external id and creation time are kept |
| UsersDao.DeleteThenGet | src/dao/users/impls/hash_map.rs:128-143 | after a delete, `get` and a second delete fail with `NoSuchEntity` |
| UsersDao.MockedCreate | src/dao/users/impls/mocked.rs:14-20 | external id "AlreadyExistingID" gives `AlreadyExists`; otherwise the validated user or `InvalidParams` |
| UsersDao.MockedGet | src/dao/users/impls/mocked.rs:22-34 | the nil id gives `NoSuchEntity`; any other id yields the fixed user |
| UsersDao.MockedUpdate | src/dao/users/impls/mocked.rs:36-52 | the nil id gives `NoSuchEntity`; otherwise `try_update` on the fixed user, with `InvalidParams` on a bad name |
| UsersDao.MockedDelete | src/dao/users/impls/mocked.rs:54-60 | the nil id gives `NoSuchEntity`; any other id succeeds |
| Pagination.Build | src/dao/common/pagination.rs:67-80 | success exactly when page and limit are non-zero, keeping both; `PageIsZero` is checked before `LimitIsZero` |
| Pagination.DefaultBuild | src/dao/common/pagination.rs:40-51 | the default builder builds page 1, limit 10, as does the legacy one (dao/pagination.rs:30-41) |
| Pagination.BuildRoundTrip | src/dao/common/pagination.rs:76-79 | building a pagination's own fields gives it back exactly when both are positive |
| HttpCommon.IntoResponse | src/http/common/errors.rs:13-17 | the response is the error's status with its details as body |
| HttpCommon.FromInvalidHeaderValue | src/http/common/errors.rs:19-26 | 422 with the header error's display text, in the current and the legacy error tables |
| HttpCommon.FromPaginationError | src/http/common/errors.rs:28-41 | both pagination errors are 422 with their display text, in the current and the legacy error tables |
| HttpCommon.PaginationErrorsDistinct | src/http/common/errors.rs:28-41 | the two pagination errors reach the client with different details |
| HttpCommon.HeadersOf | src/http/common/dtos.rs:16-31 | always succeeds with exactly the two headers `pagination-limit` and `pagination-page`, whose values are exactly the canonical decimal texts of limit and page (`to_string()`: no leading zeros) and parse back to them |
| HttpCommon.ToPagination | src/http/common/dtos.rs:33-48 | missing page or limit default to 1 and 10; success exactly when neither is 0; a zero page or limit is the 422 of its builder error |
| HttpCommon.EmptyQueryDefaults | src/http/common/dtos.rs:36-47 | an empty query gives page 1, limit 10 |
| HttpCommon.HeadersRoundTrip | src/http/common/dtos.rs:16-48 | reading a response's pagination headers back as a query rebuilds the same pagination |
| HttpItems.FromCreateItemError | src/http/items/errors.rs:17-30 | `InvalidParams` 422, `AlreadyExists` 409, `UnexpectedError` 500, each iff; details are the display text |
| HttpItems.FromDeleteItemError | src/http/items/errors.rs:32-44 | `NoSuchEntity` 404, `UnexpectedError` 500; details are the display text |
| HttpItems.FromGetItemError | src/http/items/errors.rs:46-58 | `NoSuchEntity` 404, `UnexpectedError` 500; details are the display text |
| HttpItems.FromItemsHealthError | src/http/items/errors.rs:60-71 | 500 "Something went wrong" |
| HttpItems.FromListItemsError | src/http/items/errors.rs:73-84 | 500 "Something went wrong" |
| HttpItems.FromUpdateItemError | src/http/items/errors.rs:86-99 | `InvalidParams` 422, `NoSuchEntity` 404, `UnexpectedError` 500, each iff |
| HttpItems.FromParamsBuilderError | src/http/items/errors.rs:101-126 | both params-builder errors of both builders are 422 with their display text, in the current and the legacy error tables |
| HttpItems.NoSuchEntityUniform | src/http/items/errors.rs:32-99 | get, update and delete report a missing id with the same status and the same text |
| HttpItems.FromItem | src/http/items/dtos.rs:24-34 | all five fields are copied |
| HttpItems.FromItemInjective | src/http/items/dtos.rs:24-34 | distinct items have distinct HTTP views |
| HttpItems.ToItemParams | src/http/items/dtos.rs:42-68 | HTTP create and update params always convert, with the same name and location |
| HttpUsers.FromCreateUserError | src/http/users/errors.rs:8-21 | `InvalidParams` 422, `AlreadyExists` 409, `UnexpectedError` 500, each iff |
| HttpUsers.FromDeleteUserError | src/http/users/errors.rs:23-35 | `NoSuchEntity` 404, `UnexpectedError` 500 |
| HttpUsers.FromGetUserError | src/http/users/errors.rs:37-49 | `NoSuchEntity` 404, `UnexpectedError` 500 |
| HttpUsers.FromUsersHealthError | src/http/users/errors.rs:51-62 | 500 |
| HttpUsers.FromUpdateUserError | src/http/users/errors.rs:64-77 | `InvalidParams` 422, `NoSuchEntity` 404, `UnexpectedError` 500, each iff |
| HttpUsers.ValidationFailuresAre422 | src/http/users/errors.rs:8-77 | every create or update validation failure reaches the client as 422 |
| HttpUsers.AuthTypeRoundTrip | src/http/users/dtos/entity.rs:23-37 | the two auth-type conversions are mutually inverse |
| HttpUsers.ParseAuthType | src/http/users/dtos/entity.rs:9-14 | only the lower-case wire name parses, to the type that renders as it |
| HttpUsers.AuthTypeWireRoundTrip | src/http/users/dtos/entity.rs:9-14 | every auth type reads back from its wire name |
| HttpUsers.FromUser | src/http/users/dtos/entity.rs:94-104 | id, name, external id and both timestamps are copied; the auth type converts back to the user's |
| HttpUsers.FromUserInjective | src/http/users/dtos/entity.rs:94-104 | distinct users have distinct HTTP views |
| HttpUsers.ToCreateUserParams | src/http/users/dtos/create.rs:41-45 | name and external id are copied and the auth type round-trips |
| HttpUsers.CreateEcho | src/http/users/dtos/create.rs:41-45 | a user created from an HTTP request shows the request's fields back |
| AuthSession.CsrfTokenOf | src/http/authentication/handlers.rs:56-58 | a token exactly when the session holds a readable `csrf_token` entry, and then that token |
| AuthSession.UserInfoOf | src/http/authentication/user_info.rs:51 | an identity exactly when the session holds a readable `user_info` entry, and then that identity |
| AuthSession.CookieKey | src/http/authentication/handlers.rs:39-43 | none exactly when the text has no `=`; otherwise the text after the first `=` |
| AuthSession.JarCookieKey | src/http/authentication/handlers.rs:34-43 | the rendered jar cookie `session=<v>` always splits, to `v` |
| AuthSession.SessionCookie | src/http/authentication/handlers.rs:127-132 | the cookie is `session=<id>` with SameSite=Lax, HttpOnly, Secure and Path=/ |
| AuthSession.LoadSession | src/http/authentication/handlers.rs:46-53 | the store's error, or the session under the key exactly when present |
| AuthSession.DestroySession | src/http/authentication/handlers.rs:61-67 | the store's error, or the store without that key |
| AuthSession.StoreSession | src/http/authentication/handlers.rs:117-124 | the store's error, or the store with the session under the returned key, and that key unless the store returned none |
| AuthSession.HomeRedirect | src/http/authentication/logout.rs:14-22 | a temporary redirect to `/` |
| AuthSession.AuthRedirect | src/http/authentication/user_info.rs:15-23 | a temporary redirect to `/auth` |
| AuthErrors.FromCallbackError | src/http/authentication/errors.rs:42-66 | every callback error is 500 with empty details |
| AuthErrors.FromLoginError | src/http/authentication/errors.rs:79-92 | every login error is 500 with empty details |
| AuthErrors.FromLogoutError | src/http/authentication/errors.rs:104-118 | every logout error is 500 with empty details |
| AuthErrors.ErrorsIndistinguishable | src/http/authentication/errors.rs:61-64 | any two errors of a handler give the same response, so no internal message reaches the client |
| AuthHandlers.Callback | src/http/authentication/handlers.rs:34-43 | no cookie exactly gives `NoSuchCookie` with no store call; the format error never occurs on a jar cookie; otherwise the protocol runs on the cookie's value |
| AuthHandlers.CookieStep | src/http/authentication/handlers.rs:39-43 | cookie text without `=` gives `InappropriateCookieFormat`; otherwise the key is the text after the first `=` |
| AuthHandlers.CallbackWithKey | src/http/authentication/handlers.rs:46-72 | load error `SessionLoadingFailed`, absent session `EmptySession`, no token `CsrfTokenDeserializationError`, all with the store unchanged; destroy error aborts with the store unchanged; a mismatch gives `CsrfTokensMismatch` with only the pending session removed; success needs the pending token to equal `state`; single use: once the token was read and the session destroyed, the pending key holds no session after any later outcome, unless the identity save reused that key |
| AuthHandlers.CallbackAfterDestroy | src/http/authentication/handlers.rs:69-134 | a mismatch stops before the code exchange; success stores exactly one new session holding only `user_info` under the returned key and replies with that cookie and the identity; a missing key gives `UserInfoStorageEmptyCookie` |
| AuthHandlers.CallbackResponse | src/http/authentication/handlers.rs:134 | success is 200 with the new cookie and the identity as body; failure an empty 500 |
| AuthHandlers.Login | src/http/authentication/handlers.rs:143-178 | stores exactly one session holding only the token under `csrf_token`; serialization, store and missing-key failures give their errors; success sets the returned id as cookie and targets the authorize URL with the token and scope `user` |
| AuthHandlers.LoginResponse | src/http/authentication/handlers.rs:175-178 | success is a temporary redirect to the provider with the cookie; failure an empty 500 |
| AuthHandlers.LogoutWithKey | src/http/authentication/handlers.rs:191-214 | load error `SessionLoadError`, absent session success with no change, destroy error `SessionDestructionError`; success removes the key |
| AuthHandlers.Logout | src/http/authentication/handlers.rs:186-214 | no cookie succeeds with no store call; the only session logout can remove is the one under the rendered cookie `session=<value>` |
| AuthHandlers.LogoutResponse | src/http/authentication/handlers.rs:186-214 | success is the home redirect; failure an empty 500 |
| AuthGeneric.FromCallbackError | src/http/authentication/callback.rs:56-79 | every generic callback error is 500 with empty details |
| AuthGeneric.FromLoginError | src/http/authentication/login.rs:29-43 | every generic login error is 500 with empty details |
| AuthGeneric.FromLogoutError | src/http/authentication/logout.rs:31-43 | `UnexpectedError` is 500 with empty details |
| AuthGeneric.Callback | src/http/authentication/callback.rs:89-99 | the unwrap of the cookie split never panics on a jar cookie; no cookie exactly gives `NoSuchCookie` with no store call |
| AuthGeneric.CallbackWithKey | src/http/authentication/callback.rs:101-127 | load error and absent session fail with the store unchanged; success needs the pending token to equal `state` and leaves the store with the pending session replaced by one identity session; single use as in the typed variant: after the destroy, no outcome restores the pending session |
| AuthGeneric.CallbackAfterDestroy | src/http/authentication/callback.rs:124-177 | a mismatch ends the call; success stores exactly one session holding the identity and replies with its cookie |
| AuthGeneric.Login | src/http/authentication/login.rs:45-85 | serialization and store failures give their errors; success stores only the token under the returned key and redirects to the authorize URL with the token and scope `user` |
| AuthGeneric.Logout | src/http/authentication/logout.rs:45-77 | no cookie succeeds without store calls; failure exactly on a load error or a failed destroy of a present session; only the session under the rendered cookie can be removed |
| AuthGeneric.GuardWithKey | src/http/authentication/user_info.rs:45-53 | admits exactly when the load succeeds and the session holds an identity, and returns it; load error, absent session and missing identity all reject alike |
| AuthGeneric.Guard | src/http/authentication/user_info.rs:37-54 | no cookie rejects; admits exactly when the session under the rendered cookie `session=<value>` holds an identity; the store is an input only, never changed |
| AuthGeneric.RejectionResponse | src/http/authentication/user_info.rs:17-23 | a rejection is a temporary redirect to `/auth` |
| AuthProtocol.EraseCallbackError | src/http/authentication/callback.rs:27-54 | each typed callback error corresponds to the generic one of the same kind, with the same response |
| AuthProtocol.CallbackVariantsAgree | src/http/authentication/callback.rs:81-178 | the generic callback equals the typed one with internal messages erased: same store, calls and reply |
| AuthProtocol.LoginVariantsAgree | src/http/authentication/login.rs:45-85 | the generic login equals the typed one with internal messages erased |
| AuthProtocol.LogoutVariantsAgree | src/http/authentication/logout.rs:45-77 | the generic logout equals the typed one with both failures folded into `UnexpectedError` |
| AuthProtocol.AsWrittenGuardRejectsCallbackSession | src/http/authentication/user_info.rs:44-49 | provided no key of the store before the callback begins with `session=` (keys may contain `=` elsewhere, e.g. base64 padding): the extractor as written never admits the cookie a successful callback issued |
| AuthProtocol.AsWrittenLogoutKeepsCallbackSession | src/http/authentication/handlers.rs:191-202 | provided no key of the store before the callback begins with `session=`: logout as written leaves the session a successful callback created, and reports success whenever the load succeeds |
| AuthProtocol.LookupKeyCounterexample | src/http/authentication/logout.rs:57-66 | a concrete login state, callback and cookie for which the as-written extractor and logout miss the session and the corrected ones find it |
| AuthProtocol.CorrectedGuard | src/http/authentication/user_info.rs:44-53 | the extractor looking the session up under the cookie's value: admits exactly when that session holds an identity |
| AuthProtocol.CorrectedLogout | src/http/authentication/handlers.rs:186-214 | logout looking the session up under the cookie's value: success removes exactly that session |
| AuthProtocol.LoginThenCallback | src/http/authentication/handlers.rs:137-179 | login, then a callback with its cookie and matching state: the reply carries the new cookie and identity, the code is exchanged, and the store gains exactly one identity session |
| AuthProtocol.NoExchangeWithoutMatchingToken | src/http/authentication/handlers.rs:69-85 | the provider code is exchanged only if a cookie was sent and its pending session's token equals `state` |
| AuthProtocol.ReplayRejected | src/http/authentication/handlers.rs:60-67 | once a callback succeeded, the same request again finds no pending session (`EmptySession`), when the store did not reuse the pending key |
| AuthProtocol.ReplayFails | src/http/authentication/handlers.rs:46-72 | for every store, also one that reuses keys: once a callback succeeded, the same request presented again fails |
| AuthProtocol.LogoutWithKeyIdempotent | src/http/authentication/handlers.rs:191-214 | for any lookup key: after a successful logout the key holds no session, and a second logout succeeds and changes nothing |
| AuthProtocol.LogoutIdempotentAsWritten | src/http/authentication/handlers.rs:182-215 | the typed logout as written (rendered-cookie lookup) is idempotent: a second call succeeds and leaves the store as the first left it |
| AuthProtocol.LogoutIdempotentGeneric | src/http/authentication/logout.rs:45-77 | the generic logout is idempotent in the same sense |
| AuthProtocol.LogoutIdempotent | src/http/authentication/handlers.rs:186-214 | the corrected logout (lookup by cookie value) is idempotent in the same sense |
| AuthProtocol.SessionLifecycle | src/http/authentication/user_info.rs:37-54 | after a successful callback the corrected extractor admits the new cookie with the fetched identity; after logout it rejects it |
| Legacy.MessagesIdentifyCheck | src/dao/entity.rs:119-143 | different failed checks never share a message |
| Legacy.BuildEntity | src/dao/entity.rs:119-152 | the checks and bounds of the item builder, in the same order, as the messages "Name was not set in builder" … "Last update time cannot be less than creation time"; fails exactly where the item builder fails |
| Legacy.TryMutate | src/dao/entity.rs:38-49 | keeps id and creation time, takes both fields from the mutation, sets updated = now; agrees with the item `try_update` |
| Legacy.NewEntity | src/dao/entity.rs:52-62 | a fresh entity with the params' fields and created == updated, or the name/location message |
| Legacy.BuildPagination | src/dao/pagination.rs:57-70 | zero page rejected first, then zero limit, with the current builder's display texts; non-zero values kept |
| Legacy.List | src/dao/impls/hash_map.rs:41-53 | the same window at the exact offset as the current `list` (the wrap-around is under Left out) |
| Legacy.Create | src/dao/impls/hash_map.rs:55-64 | equal in result and map to the current create |
| Legacy.Get | src/dao/impls/hash_map.rs:66-72 | equal to the current get |
| Legacy.Update | src/dao/impls/hash_map.rs:74-91 | equal in result and map to the current update |
| Legacy.Delete | src/dao/impls/hash_map.rs:93-98 | equal in result and map to the current delete |
| Legacy.MockedList | src/dao/impls/mocked.rs:21-29 | the one fixed entity, whatever the pagination |
| Legacy.MockedCreate | src/dao/impls/mocked.rs:31-35 | the validated entity or `InvalidParams`, as the current mocked create |
| Legacy.MockedGet | src/dao/impls/mocked.rs:37-46 | the fixed entity with the requested id |
| Legacy.MockedUpdate | src/dao/impls/mocked.rs:48-63 | `try_mutate` on the fixed entity; invalid input gives `InvalidParams` |
| Legacy.MockedUpdateAgrees | src/dao/impls/mocked.rs:48-63 | the legacy and current mocked updates answer alike |
| Legacy.CreateStatus | src/http/errors.rs:37-50 | `InvalidParams` 422, `AlreadyExists` 409, `UnexpectedError` 500, as in the current table |
| Legacy.DeleteStatus | src/http/errors.rs:52-64 | `NoSuchEntity` 404, `UnexpectedError` 500 |
| Legacy.GetStatus | src/http/errors.rs:66-78 | `NoSuchEntity` 404, `UnexpectedError` 500 |
| Legacy.HealthStatus | src/http/errors.rs:80-91 | 500 |
| Legacy.ListStatus | src/http/errors.rs:93-104 | 500 |
| Legacy.UpdateStatus | src/http/errors.rs:106-119 | `InvalidParams` 422, `NoSuchEntity` 404, `UnexpectedError` 500 |

## Left out

- HTTP routing and extraction, the `oauth2` client and the GitHub `/user` request are not modelled; only their outcomes are. Those outcomes enter as oracle records, and so do the `async_session` store's answers.
- Cookie-value decoding inside the session store is left out. A load sees the key it is handed.
- Serde (de)serialization of session values and DTOs is left out. A session value is a readable token, a readable identity, or unreadable. A failed insert is an oracle answer.
- The `Arc<RwLock<…>>` around the DAO maps is left out: the model is single-threaded.
- `Utc::now`, `Uuid::new_v4` and `CsrfToken::new_random` are parameters.
- The authorize URL is represented by the state token and the scope list it carries, not by its text.
- `tracing` logging is left out, and with it the display texts of the authentication errors, which only reach the log.
- The `fake`/`Dummy` test generators are left out.
- The thin route handlers are left out; they only compose DAO calls with the error tables.
- HttpUsers.ParseAuthType: serde's `rename_all = "lowercase"` is modelled only for the single variant `Github` (wire name `github`), not as general lower-casing.
- Legacy.CreateStatus, Legacy.DeleteStatus, Legacy.GetStatus, Legacy.HealthStatus, Legacy.ListStatus, Legacy.UpdateStatus: only the status is modelled. The details are the legacy DAO errors' display texts, and those enums are not part of this model.
- Listing.List: ties between equal update times are left unordered. The sort in the source is stable over an unspecified `HashMap` order, so any order of equal keys is allowed.
- ItemsDao.HashMapList, Legacy.List: both use the corrected, exact page offset of `Listing.List`. The source computes `(page - 1) * limit` in `usize`, which wraps in release builds and panics in debug builds once it reaches 2^64. That behaviour is modelled separately as `Listing.ListAsWritten` (see Findings).
- The legacy `MockedDao::delete` and the legacy `health` operations have no `Legacy` member: `ItemsDao.MockedDelete` and `ItemsDao.Health` state their behaviour.
- `HeaderValue::from_str` is modelled only through its visible-ASCII rule. The header values are decimal digits, so it never fails there.

## Findings

| source | as written | input that shows it | evidently intended | confidence | as-written member | corrected member |
|---|---|---|---|---|---|---|
| src/http/authentication/user_info.rs:46, src/http/authentication/logout.rs:59, src/http/authentication/handlers.rs:193 | the extractor and logout look the session up under `cookie.to_string()`, the rendered `session=<id>`, while the callback stores it under `<id>`, the text after the first `=` | pending session `p` with token `t`; a callback with state `t` whose identity is saved under `s`; then a request with cookie `session=s` | look the session up under the cookie's value, as the callback does | not executed; the real symptom depends on how the store decodes `session=<id>` (a load error or a miss), but in neither case is the session found | AuthGeneric.Guard, AuthHandlers.Logout, AuthProtocol.AsWrittenGuardRejectsCallbackSession, AuthProtocol.LookupKeyCounterexample | AuthProtocol.CorrectedGuard, AuthProtocol.CorrectedLogout, AuthProtocol.SessionLifecycle |
| src/dao/items/impls/hash_map.rs:51 | `(page - 1) * limit` in `usize` wraps modulo 2^64 when overflow checks are off (release builds) | page 2^63 + 1, limit 2, one stored item: the offset wraps to 0 and the item is returned | an offset past the end gives an empty page | not executed; a debug build panics on the overflow instead | Listing.ListAsWritten, Listing.WrappedOffsetReturnsFirstPage | Listing.List |
