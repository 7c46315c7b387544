/** The vocabulary shared by the authentication handlers (http/authentication/): the session
    cookie, the values kept in a session, the session store as a map, the oracles that stand for
    the store's, the OAuth client's and the identity provider's answers, the effects a handler
    performs, and the responses it produces. */
module AuthSession {
  import opened Wrappers
  import opened Text
  import opened HttpCommon
  import Pagination

  const COOKIE_NAME: string := "session"
  const CSRF_TOKEN: string := "csrf_token"
  const USER_INFO: string := "user_info"
  const HOME_PATH: string := "/"
  const AUTH_PATH: string := "/auth"

  /** The scope requested at the provider. */
  const USER_SCOPE: string := "user"

  /** The identity fetched from the provider (`UserInfo { id: usize }`). */
  datatype UserInfo = UserInfo(id: Pagination.Usize)

  /** A serialized entry of a session. `Unreadable` stands for an entry that does not
      deserialize into the type asked for. */
  datatype Value = CsrfSecret(secret: string) | Identity(info: UserInfo) | Unreadable

  type Session = map<string, Value>

  /** The session store: each stored session under the key it is loaded by. */
  type Store = map<string, Session>

  /** The request's cookies, name to value. */
  type CookieJar = map<string, string>

  /** `session.get::<CsrfToken>("csrf_token")`. */
  function CsrfTokenOf(s: Session): (r: Option<string>)
    ensures r.Some? <==> CSRF_TOKEN in s && s[CSRF_TOKEN].CsrfSecret?
    ensures r.Some? ==> s[CSRF_TOKEN] == CsrfSecret(r.value)
  {
    if CSRF_TOKEN in s && s[CSRF_TOKEN].CsrfSecret? then Some(s[CSRF_TOKEN].secret) else None
  }

  /** `session.get::<UserInfo>("user_info")`. */
  function UserInfoOf(s: Session): (r: Option<UserInfo>)
    ensures r.Some? <==> USER_INFO in s && s[USER_INFO].Identity?
    ensures r.Some? ==> s[USER_INFO] == Identity(r.value)
  {
    if USER_INFO in s && s[USER_INFO].Identity? then Some(s[USER_INFO].info) else None
  }

  /** `Cookie::to_string` of a cookie from the request jar: `name=value`. */
  function RenderCookie(name: string, value: string): string {
    name + "=" + value
  }

  /** The callback's key extraction: `split_once('=')` of the cookie text, second half. */
  function CookieKey(text: string): (r: Option<string>)
    ensures r.None? <==> '=' !in text
    ensures r.Some? ==> exists a :: text == a + "=" + r.value && '=' !in a
  {
    match SplitOnce(text, '=')
    case None => None
    case Some((a, b)) => assert text == a + "=" + b; Some(b)
  }

  /** The cookie name holds no `=`, so the key extracted from a jar cookie is its value. */
  lemma JarCookieKey(value: string)
    ensures CookieKey(RenderCookie(COOKIE_NAME, value)) == Some(value)
  {
    SplitOnceAfterPrefix(COOKIE_NAME, '=', value);
    assert RenderCookie(COOKIE_NAME, value) == COOKIE_NAME + ['='] + value;
  }

  /** The rendered cookie is never its own value, so it never names the same store entry. */
  lemma RenderedCookieDiffers(value: string)
    ensures RenderCookie(COOKIE_NAME, value) != value
  {
    assert |RenderCookie(COOKIE_NAME, value)| == |value| + 8;
  }

  // ---------------------------------------------------------------- cookies set on the response

  datatype SameSite = Lax | Strict | NoneSite

  datatype SetCookie = SetCookie(name: string, value: string, sameSite: SameSite, httpOnly: bool, secure: bool, path: string)

  /** The session cookie both login and callback issue. */
  function SessionCookie(id: string): (c: SetCookie)
    ensures c.name == COOKIE_NAME && c.value == id
    ensures c.sameSite == Lax && c.httpOnly && c.secure && c.path == "/"
  {
    SetCookie(COOKIE_NAME, id, Lax, true, true, "/")
  }

  // ---------------------------------------------------------------- oracles and effects

  /** What `store_session` answers: the key the session was written under, and whether the
      cookie value came back (`Some`) or not (`None`). */
  datatype StoreReply = StoreReply(key: string, returned: bool)

  /** What the identity provider's `/user` endpoint answers. */
  datatype FetchOutcome =
    | Fetched(info: UserInfo)
    | RequestFailed(message: string)
    | StatusFailed(message: string)
    | DecodeFailed(message: string)

  /** Every external answer the callback may receive, in the order it asks. `None` for an
      error field means the call succeeds. */
  datatype CallbackOracle = CallbackOracle(
    loadError: Option<string>,
    destroyError: Option<string>,
    exchange: Result<string, string>,
    fetch: FetchOutcome,
    serializeError: Option<string>,
    save: Result<StoreReply, string>)

  /** The answers login receives: the random CSRF token, the serializer and the store. */
  datatype LoginOracle = LoginOracle(token: string, serializeError: Option<string>, save: Result<StoreReply, string>)

  /** The answers logout receives from the store. */
  datatype LogoutOracle = LogoutOracle(loadError: Option<string>, destroyError: Option<string>)

  /** A store that hands out fresh keys: the key a write goes to holds no session yet. */
  predicate FreshSave(save: Result<StoreReply, string>, store: Store) {
    save.Success? ==> save.value.key !in store
  }

  /** The external calls a handler makes, in order. */
  datatype Effect =
    | Load(key: string)
    | Destroy(key: string)
    | Save
    | ExchangeCode(code: string)
    | FetchUserInfo(token: string)

  predicate TouchesStore(trace: seq<Effect>) {
    exists i :: 0 <= i < |trace| && (trace[i].Load? || trace[i].Destroy? || trace[i].Save?)
  }

  predicate ExchangesCode(trace: seq<Effect>) {
    exists i :: 0 <= i < |trace| && trace[i].ExchangeCode?
  }

  /** A handler's outcome, the store as it leaves it, and the calls it made. */
  datatype HandlerRun<+T, +E> = HandlerRun(outcome: Result<T, E>, store: Store, trace: seq<Effect>)

  // ---------------------------------------------------------------- store primitives

  /** `load_session(key)`: the oracle's error, or what the store holds under `key`. */
  function LoadSession(store: Store, key: string, error: Option<string>): (r: Result<Option<Session>, string>)
    ensures error.Some? ==> r == Failure(error.value)
    ensures error.None? ==> r.Success? && (r.value.Some? <==> key in store)
    ensures error.None? && key in store ==> r.value == Some(store[key])
  {
    if error.Some? then Failure(error.value) else if key in store then Success(Some(store[key])) else Success(None)
  }

  /** `destroy_session`: on success the session loaded under `key` is gone; on error nothing changes. */
  function DestroySession(store: Store, key: string, error: Option<string>): (r: Result<Store, string>)
    ensures error.Some? ==> r == Failure(error.value)
    ensures error.None? ==> r == Success(store - {key})
  {
    if error.Some? then Failure(error.value) else Success(store - {key})
  }

  /** `store_session`: on success the session is written under the reply's key, and the
      handler receives that key only if the store returned it. */
  function StoreSession(store: Store, session: Session, save: Result<StoreReply, string>): (r: Result<(Store, Option<string>), string>)
    ensures save.Failure? ==> r == Failure(save.error)
    ensures save.Success? ==> r.Success? && r.value.0 == store[save.value.key := session]
    ensures save.Success? ==> (r.value.1 == if save.value.returned then Some(save.value.key) else None)
  {
    match save
    case Failure(e) => Failure(e)
    case Success(reply) =>
      Success((store[reply.key := session], if reply.returned then Some(reply.key) else None))
  }

  // ---------------------------------------------------------------- responses

  /** Where a redirect points: a path of this application, or the provider's authorization
      endpoint with the given `state` and scopes (the URL text is built by the OAuth client). */
  datatype Location = AppPath(path: string) | ProviderAuthorize(state: string, scopes: seq<string>)

  datatype Body = NoBody | Details(text: string) | UserInfoJson(info: UserInfo)

  datatype AuthResponse = AuthResponse(status: StatusCode, location: Option<Location>, setCookie: Option<SetCookie>, body: Body)

  /** `Redirect::temporary`. */
  function TemporaryRedirect(to: Location, cookie: Option<SetCookie>): (r: AuthResponse)
    ensures r.status == TEMPORARY_REDIRECT && r.location == Some(to) && r.setCookie == cookie
  {
    AuthResponse(TEMPORARY_REDIRECT, Some(to), cookie, NoBody)
  }

  /** `HomeRedirect::into_response`: a temporary redirect to `/`. */
  function HomeRedirect(): (r: AuthResponse)
    ensures r.status == 307 && r.location == Some(AppPath("/")) && r.setCookie.None?
  {
    TemporaryRedirect(AppPath(HOME_PATH), None)
  }

  /** `AuthRedirect::into_response`: a temporary redirect to `/auth`. */
  function AuthRedirect(): (r: AuthResponse)
    ensures r.status == 307 && r.location == Some(AppPath("/auth")) && r.setCookie.None?
  {
    TemporaryRedirect(AppPath(AUTH_PATH), None)
  }

  /** `AppError::into_response` in this response shape. */
  function ErrorResponse(e: AppError): (r: AuthResponse)
    ensures r.status == e.status && r.body == Details(e.details)
    ensures r.location.None? && r.setCookie.None?
  {
    AuthResponse(e.status, None, None, Details(e.details))
  }
}
