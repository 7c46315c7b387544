/** The store-generic authentication handlers (http/authentication/callback.rs, login.rs,
    logout.rs) and the `UserInfo` extractor that guards protected routes (user_info.rs).
    They follow the same protocol as the typed handlers but their errors carry no internal
    message, logout folds both failures into one, and the callback unwraps the cookie split. */
module AuthGeneric {
  import opened Wrappers
  import opened HttpCommon
  import opened AuthSession
  import AuthHandlers

  datatype CallbackError =
    | NoSuchCookie(cookieName: string)
    | SessionLoadingFailed
    | EmptySession
    | CsrfTokenDeserializationError
    | CsrfTokenSessionDestructionError
    | CsrfTokensMismatch
    | CodeExchangeError
    | UserInfoRequestError
    | UserInfoDeserializeResponseError
    | UserInfoSerializationError
    | UserInfoStorageError
    | UserInfoStorageEmptyCookie

  datatype LoginError = CsrfTokenSerialization | CsrfTokenStorage | CsrfTokenStorageEmptyCookie

  datatype LogoutError = UnexpectedError

  /** A handler that either completes with a run or panics (an `unwrap` on `None`). */
  datatype Completion<+T> = Completed(run: T) | Panicked

  function FromCallbackError(e: CallbackError): (r: AppError)
    ensures r.status == INTERNAL_SERVER_ERROR && r.details == ""
  {
    var status := match e
      case NoSuchCookie(_) | SessionLoadingFailed | EmptySession | CsrfTokenDeserializationError
        | CsrfTokenSessionDestructionError | CsrfTokensMismatch | CodeExchangeError | UserInfoRequestError
        | UserInfoDeserializeResponseError | UserInfoSerializationError | UserInfoStorageError
        | UserInfoStorageEmptyCookie => INTERNAL_SERVER_ERROR;
    AppError(status, "")
  }

  function FromLoginError(e: LoginError): (r: AppError)
    ensures r.status == INTERNAL_SERVER_ERROR && r.details == ""
  {
    var status := match e
      case CsrfTokenSerialization | CsrfTokenStorageEmptyCookie | CsrfTokenStorage => INTERNAL_SERVER_ERROR;
    AppError(status, "")
  }

  function FromLogoutError(e: LogoutError): (r: AppError)
    ensures r.status == INTERNAL_SERVER_ERROR && r.details == ""
  {
    var status := match e case UnexpectedError => INTERNAL_SERVER_ERROR;
    AppError(status, "")
  }

  // ---------------------------------------------------------------- auth_callback

  function CallbackAfterDestroy(secret: string, q: AuthHandlers.CallbackQuery, store: Store, o: CallbackOracle, trace: seq<Effect>): (r: HandlerRun<AuthHandlers.CallbackReply, CallbackError>)
    ensures secret != q.state ==> r == HandlerRun(Failure(CsrfTokensMismatch), store, trace)
    // the missing-cookie error comes only from the cookie step
    ensures r.outcome.Failure? ==> !r.outcome.error.NoSuchCookie?
    ensures r.outcome.Success? ==>
      && o.save.Success? && o.save.value.returned && o.fetch.Fetched?
      && r.outcome.value == AuthHandlers.CallbackReply(SessionCookie(o.save.value.key), o.fetch.info)
      && r.store == store[o.save.value.key := map[USER_INFO := Identity(o.fetch.info)]]
  {
    if secret != q.state then HandlerRun(Failure(CsrfTokensMismatch), store, trace)
    else
      var trace := trace + [ExchangeCode(q.code)];
      match o.exchange
      case Failure(_) => HandlerRun(Failure(CodeExchangeError), store, trace)
      case Success(token) =>
        var trace := trace + [FetchUserInfo(token)];
        match o.fetch
        case RequestFailed(_) => HandlerRun(Failure(UserInfoRequestError), store, trace)
        case StatusFailed(_) => HandlerRun(Failure(UserInfoRequestError), store, trace)
        case DecodeFailed(_) => HandlerRun(Failure(UserInfoDeserializeResponseError), store, trace)
        case Fetched(info) =>
          if o.serializeError.Some? then HandlerRun(Failure(UserInfoSerializationError), store, trace)
          else
            var trace := trace + [Save];
            match StoreSession(store, map[USER_INFO := Identity(info)], o.save)
            case Failure(_) => HandlerRun(Failure(UserInfoStorageError), store, trace)
            case Success((stored, id)) =>
              if id.None? then HandlerRun(Failure(UserInfoStorageEmptyCookie), stored, trace)
              else HandlerRun(Success(AuthHandlers.CallbackReply(SessionCookie(id.value), info)), stored, trace)
  }

  function CallbackWithKey(key: string, q: AuthHandlers.CallbackQuery, store: Store, o: CallbackOracle): (r: HandlerRun<AuthHandlers.CallbackReply, CallbackError>)
    ensures o.loadError.Some? ==> r == HandlerRun(Failure(SessionLoadingFailed), store, [Load(key)])
    // the missing-cookie error comes only from the cookie step
    ensures r.outcome.Failure? ==> !r.outcome.error.NoSuchCookie?
    ensures o.loadError.None? && key !in store ==> r == HandlerRun(Failure(EmptySession), store, [Load(key)])
    // single use: once the token was read and the pending session destroyed, it never comes
    // back, whatever fails later; only a save that reuses its key writes there again
    ensures o.loadError.None? && key in store && CsrfTokenOf(store[key]).Some? && o.destroyError.None? ==>
      key !in r.store
      || (o.save.Success? && o.fetch.Fetched? && o.save.value.key == key
          && r.store[key] == map[USER_INFO := Identity(o.fetch.info)])
    ensures r.outcome.Success? ==> key in store && CsrfTokenOf(store[key]) == Some(q.state)
    ensures r.outcome.Success? ==>
      && o.save.Success? && o.fetch.Fetched?
      && r.store == (store - {key})[o.save.value.key := map[USER_INFO := Identity(o.fetch.info)]]
  {
    match LoadSession(store, key, o.loadError)
    case Failure(_) => HandlerRun(Failure(SessionLoadingFailed), store, [Load(key)])
    case Success(loaded) =>
      if loaded.None? then HandlerRun(Failure(EmptySession), store, [Load(key)])
      else match CsrfTokenOf(loaded.value)
      case None => HandlerRun(Failure(CsrfTokenDeserializationError), store, [Load(key)])
      case Some(secret) =>
        match DestroySession(store, key, o.destroyError)
        case Failure(_) => HandlerRun(Failure(CsrfTokenSessionDestructionError), store, [Load(key), Destroy(key)])
        case Success(remaining) => CallbackAfterDestroy(secret, q, remaining, o, [Load(key), Destroy(key)])
  }

  /** `auth_callback`: the text after the first `=` of the rendered cookie is the store key;
      the split is unwrapped, which panics when the text has no `=`. */
  function Callback(jar: CookieJar, q: AuthHandlers.CallbackQuery, store: Store, o: CallbackOracle): (r: Completion<HandlerRun<AuthHandlers.CallbackReply, CallbackError>>)
    // a cookie taken from a jar always splits, so the unwrap never panics
    ensures r.Completed?
    ensures COOKIE_NAME !in jar <==> r.run.outcome == Failure(NoSuchCookie(COOKIE_NAME))
    ensures COOKIE_NAME !in jar ==> r.run.store == store && r.run.trace == []
    ensures COOKIE_NAME in jar ==> r.run == CallbackWithKey(jar[COOKIE_NAME], q, store, o)
  {
    if COOKIE_NAME !in jar then Completed(HandlerRun(Failure(NoSuchCookie(COOKIE_NAME)), store, []))
    else
      JarCookieKey(jar[COOKIE_NAME]);
      match CookieKey(RenderCookie(COOKIE_NAME, jar[COOKIE_NAME]))
      case None => Panicked
      case Some(key) => Completed(CallbackWithKey(key, q, store, o))
  }

  // ---------------------------------------------------------------- login

  function Login(store: Store, o: LoginOracle): (r: HandlerRun<AuthHandlers.LoginReply, LoginError>)
    ensures o.serializeError.Some? ==> r == HandlerRun(Failure(CsrfTokenSerialization), store, [])
    ensures o.serializeError.None? && o.save.Failure? ==> r == HandlerRun(Failure(CsrfTokenStorage), store, [Save])
    ensures o.serializeError.None? && o.save.Success? ==>
      && r.store == store[o.save.value.key := map[CSRF_TOKEN := CsrfSecret(o.token)]]
      && (r.outcome.Success? <==> o.save.value.returned)
    ensures r.outcome.Success? ==>
      r.outcome.value == AuthHandlers.LoginReply(SessionCookie(o.save.value.key), ProviderAuthorize(o.token, [USER_SCOPE]))
  {
    var pending: Session := map[CSRF_TOKEN := CsrfSecret(o.token)];
    if o.serializeError.Some? then HandlerRun(Failure(CsrfTokenSerialization), store, [])
    else match StoreSession(store, pending, o.save)
      case Failure(_) => HandlerRun(Failure(CsrfTokenStorage), store, [Save])
      case Success((stored, id)) =>
        if id.None? then HandlerRun(Failure(CsrfTokenStorageEmptyCookie), stored, [Save])
        else HandlerRun(Success(AuthHandlers.LoginReply(SessionCookie(id.value), ProviderAuthorize(o.token, [USER_SCOPE]))), stored, [Save])
  }

  // ---------------------------------------------------------------- logout

  /** `logout`: looks the session up under the whole rendered cookie; both store failures
      become `UnexpectedError`. */
  function Logout(jar: CookieJar, store: Store, o: LogoutOracle): (r: HandlerRun<(), LogoutError>)
    ensures COOKIE_NAME !in jar ==> r == HandlerRun(Success(()), store, [])
    ensures r.outcome.Failure? <==>
      && COOKIE_NAME in jar
      && (o.loadError.Some? || (RenderCookie(COOKIE_NAME, jar[COOKIE_NAME]) in store && o.destroyError.Some?))
    ensures COOKIE_NAME in jar ==> r.trace != [] && r.trace[0] == Load(RenderCookie(COOKIE_NAME, jar[COOKIE_NAME]))
    ensures r.store == store || (COOKIE_NAME in jar && r.store == store - {RenderCookie(COOKIE_NAME, jar[COOKIE_NAME])})
  {
    if COOKIE_NAME !in jar then HandlerRun(Success(()), store, [])
    else
      var key := RenderCookie(COOKIE_NAME, jar[COOKIE_NAME]);
      match LoadSession(store, key, o.loadError)
      case Failure(_) => HandlerRun(Failure(UnexpectedError), store, [Load(key)])
      case Success(loaded) =>
        if loaded.None? then HandlerRun(Success(()), store, [Load(key)])
        else match DestroySession(store, key, o.destroyError)
          case Failure(_) => HandlerRun(Failure(UnexpectedError), store, [Load(key), Destroy(key)])
          case Success(remaining) => HandlerRun(Success(()), remaining, [Load(key), Destroy(key)])
  }

  // ---------------------------------------------------------------- the UserInfo extractor

  /** The extractor's rejection: a temporary redirect to `/auth`. */
  datatype Rejection = ToAuth

  /** The extractor once the lookup key is known: the identity stored under `user_info` in the
      session under `key`, or a rejection for every failure. */
  function GuardWithKey(key: string, store: Store, loadError: Option<string>): (r: Result<UserInfo, Rejection>)
    ensures r.Success? <==> loadError.None? && key in store && USER_INFO in store[key] && store[key][USER_INFO].Identity?
    ensures r.Success? ==> store[key][USER_INFO] == Identity(r.value)
  {
    match LoadSession(store, key, loadError)
    case Failure(_) => Failure(ToAuth)
    case Success(loaded) =>
      if loaded.None? then Failure(ToAuth)
      else match UserInfoOf(loaded.value)
        case None => Failure(ToAuth)
        case Some(info) => Success(info)
  }

  /** The extractor as written: the store is asked for the whole rendered cookie `session=<value>`. */
  function Guard(jar: CookieJar, store: Store, loadError: Option<string>): (r: Result<UserInfo, Rejection>)
    ensures r.Success? <==>
      && COOKIE_NAME in jar && loadError.None?
      && (var key := RenderCookie(COOKIE_NAME, jar[COOKIE_NAME]);
          key in store && USER_INFO in store[key] && store[key][USER_INFO].Identity?)
    ensures r.Success? ==> store[RenderCookie(COOKIE_NAME, jar[COOKIE_NAME])][USER_INFO] == Identity(r.value)
  {
    if COOKIE_NAME !in jar then Failure(ToAuth)
    else GuardWithKey(RenderCookie(COOKIE_NAME, jar[COOKIE_NAME]), store, loadError)
  }

  /** The extractor's response on rejection: a temporary redirect to `/auth`. */
  function RejectionResponse(e: Rejection): (r: AuthResponse)
    ensures r.status == TEMPORARY_REDIRECT && r.location == Some(AppPath(AUTH_PATH)) && r.setCookie.None?
  {
    match e case ToAuth => AuthRedirect()
  }
}
