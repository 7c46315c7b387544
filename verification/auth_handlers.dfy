/** The typed-error authentication handlers (http/authentication/handlers.rs): `auth_callback`,
    `login` and `logout`. Each handler is a function of the request, the store and the oracle
    answers, returning its outcome, the store it leaves and the external calls it made. */
module AuthHandlers {
  import opened Wrappers
  import opened HttpCommon
  import opened AuthSession
  import opened AuthErrors

  datatype CallbackQuery = CallbackQuery(code: string, state: string)

  /** A successful callback: the cookie for the new session and the identity as body. */
  datatype CallbackReply = CallbackReply(cookie: SetCookie, info: UserInfo)

  /** A successful login: the cookie for the pending session and the redirect target. */
  datatype LoginReply = LoginReply(cookie: SetCookie, location: Location)

  // ---------------------------------------------------------------- auth_callback

  /** The callback after the pending session was loaded under `key`, read and destroyed:
      compare the token, exchange the code, fetch the identity, store it. */
  function CallbackAfterDestroy(secret: string, q: CallbackQuery, store: Store, o: CallbackOracle, trace: seq<Effect>): (r: HandlerRun<CallbackReply, AuthCallbackError>)
    ensures secret != q.state ==> r == HandlerRun(Failure(CsrfTokensMismatch), store, trace)
    // the cookie errors come only from the cookie step
    ensures r.outcome.Failure? ==> !r.outcome.error.NoSuchCookie? && !r.outcome.error.InappropriateCookieFormat?
    ensures r.outcome.Success? ==> secret == q.state
    ensures r.outcome.Success? ==> o.save.Success? && o.save.value.returned
    ensures r.outcome.Success? ==>
      && o.fetch.Fetched?
      && r.outcome.value == CallbackReply(SessionCookie(o.save.value.key), o.fetch.info)
    // at most one session is written, holding only the identity
    ensures r.store == store || (o.save.Success? && o.fetch.Fetched? && r.store == store[o.save.value.key := map[USER_INFO := Identity(o.fetch.info)]])
    ensures r.outcome.Success? ==> r.store == store[o.save.value.key := map[USER_INFO := Identity(o.fetch.info)]]
    ensures |r.trace| >= |trace| && r.trace[..|trace|] == trace
  {
    if secret != q.state then HandlerRun(Failure(CsrfTokensMismatch), store, trace)
    else
      var trace := trace + [ExchangeCode(q.code)];
      match o.exchange
      case Failure(m) => HandlerRun(Failure(CodeExchangeError(m)), store, trace)
      case Success(token) =>
        var trace := trace + [FetchUserInfo(token)];
        match o.fetch
        case RequestFailed(m) => HandlerRun(Failure(UserInfoRequestError(m)), store, trace)
        case StatusFailed(m) => HandlerRun(Failure(UserInfoRequestError(m)), store, trace)
        case DecodeFailed(m) => HandlerRun(Failure(UserInfoDeserializeResponseError(m)), store, trace)
        case Fetched(info) =>
          if o.serializeError.Some? then HandlerRun(Failure(UserInfoSerializationError(o.serializeError.value)), store, trace)
          else
            var trace := trace + [Save];
            match StoreSession(store, map[USER_INFO := Identity(info)], o.save)
            case Failure(m) => HandlerRun(Failure(UserInfoStorageError(m)), store, trace)
            case Success((stored, id)) =>
              if id.None? then HandlerRun(Failure(UserInfoStorageEmptyCookie), stored, trace)
              else HandlerRun(Success(CallbackReply(SessionCookie(id.value), info)), stored, trace)
  }

  /** `auth_callback` once the store key is known: load, read the token, destroy, continue. */
  function CallbackWithKey(key: string, q: CallbackQuery, store: Store, o: CallbackOracle): (r: HandlerRun<CallbackReply, AuthCallbackError>)
    ensures r.trace != [] && r.trace[0] == Load(key)
    // the cookie errors come only from the cookie step
    ensures r.outcome.Failure? ==> !r.outcome.error.NoSuchCookie? && !r.outcome.error.InappropriateCookieFormat?
    ensures o.loadError.Some? ==> r == HandlerRun(Failure(SessionLoadingFailed(o.loadError.value)), store, [Load(key)])
    ensures o.loadError.None? && key !in store ==> r == HandlerRun(Failure(EmptySession), store, [Load(key)])
    ensures o.loadError.None? && key in store && CsrfTokenOf(store[key]).None? ==>
      r == HandlerRun(Failure(CsrfTokenDeserializationError), store, [Load(key)])
    ensures o.loadError.None? && key in store && CsrfTokenOf(store[key]).Some? && o.destroyError.Some? ==>
      r == HandlerRun(Failure(CsrfTokenSessionDestructionError(o.destroyError.value)), store, [Load(key), Destroy(key)])
    // the pending session is destroyed before the comparison; a mismatch then ends the call
    ensures (o.loadError.None? && key in store && CsrfTokenOf(store[key]).Some? && o.destroyError.None?
      && CsrfTokenOf(store[key]).value != q.state) ==>
      r == HandlerRun(Failure(CsrfTokensMismatch), store - {key}, [Load(key), Destroy(key)])
    // single use: once the token was read and the pending session destroyed, it never comes
    // back, whatever fails later; only a save that reuses its key writes there again
    ensures o.loadError.None? && key in store && CsrfTokenOf(store[key]).Some? && o.destroyError.None? ==>
      key !in r.store
      || (o.save.Success? && o.fetch.Fetched? && o.save.value.key == key
          && r.store[key] == map[USER_INFO := Identity(o.fetch.info)])
    // CSRF binding: success needs the pending session's token to equal `state`
    ensures r.outcome.Success? ==> key in store && CsrfTokenOf(store[key]) == Some(q.state)
    ensures r.outcome.Success? ==> o.save.Success? && o.fetch.Fetched? && r.store == (store - {key})[o.save.value.key := map[USER_INFO := Identity(o.fetch.info)]]
    ensures r.store == store || r.store == store - {key}
      || (o.save.Success? && o.fetch.Fetched? && r.store == (store - {key})[o.save.value.key := map[USER_INFO := Identity(o.fetch.info)]])
  {
    match LoadSession(store, key, o.loadError)
    case Failure(m) => HandlerRun(Failure(SessionLoadingFailed(m)), store, [Load(key)])
    case Success(loaded) =>
      if loaded.None? then HandlerRun(Failure(EmptySession), store, [Load(key)])
      else match CsrfTokenOf(loaded.value)
      case None => HandlerRun(Failure(CsrfTokenDeserializationError), store, [Load(key)])
      case Some(secret) =>
        match DestroySession(store, key, o.destroyError)
        case Failure(m) => HandlerRun(Failure(CsrfTokenSessionDestructionError(m)), store, [Load(key), Destroy(key)])
        case Success(remaining) => CallbackAfterDestroy(secret, q, remaining, o, [Load(key), Destroy(key)])
  }

  /** `auth_callback`: find the session cookie, take the text after the first `=` as the store
      key, and run the protocol. */
  function Callback(jar: CookieJar, q: CallbackQuery, store: Store, o: CallbackOracle): (r: HandlerRun<CallbackReply, AuthCallbackError>)
    // no cookie: fail before any store call
    ensures COOKIE_NAME !in jar <==> r.outcome == Failure(NoSuchCookie(COOKIE_NAME))
    ensures COOKIE_NAME !in jar ==> r.store == store && r.trace == []
    // the cookie of a jar always has the `name=value` form, so the format error cannot occur
    ensures r.outcome != Failure(InappropriateCookieFormat)
    // with a cookie, the pending session is looked up by the cookie's value
    ensures COOKIE_NAME in jar ==> r == CallbackWithKey(jar[COOKIE_NAME], q, store, o)
  {
    if COOKIE_NAME !in jar then HandlerRun(Failure(NoSuchCookie(COOKIE_NAME)), store, [])
    else
      JarCookieKey(jar[COOKIE_NAME]);
      match CookieKey(RenderCookie(COOKIE_NAME, jar[COOKIE_NAME]))
      case None => HandlerRun(Failure(InappropriateCookieFormat), store, [])
      case Some(key) => CallbackWithKey(key, q, store, o)
  }

  /** The callback's cookie step on arbitrary cookie text: text without `=` is the format error,
      anything else yields the text after the first `=`. */
  function CookieStep(text: string): (r: Result<string, AuthCallbackError>)
    ensures r == Failure(InappropriateCookieFormat) <==> '=' !in text
    ensures r.Success? ==> exists a :: text == a + "=" + r.value && '=' !in a
  {
    match CookieKey(text)
    case None => Failure(InappropriateCookieFormat)
    case Some(key) => Success(key)
  }

  /** The callback's HTTP response: 200 with the new cookie and the identity, or an empty 500. */
  function CallbackResponse(outcome: Result<CallbackReply, AuthCallbackError>): (r: AuthResponse)
    ensures outcome.Success? ==>
      r == AuthResponse(OK, None, Some(outcome.value.cookie), UserInfoJson(outcome.value.info))
    ensures outcome.Failure? ==> r == AuthResponse(INTERNAL_SERVER_ERROR, None, None, Details(""))
  {
    match outcome
    case Success(reply) => AuthResponse(OK, None, Some(reply.cookie), UserInfoJson(reply.info))
    case Failure(e) => ErrorResponse(FromCallbackError(e))
  }

  // ---------------------------------------------------------------- login

  /** `login`: ask for an authorization URL with a fresh token and the `user` scope, store a
      pending session holding only the token, set its cookie and redirect to the provider. */
  function Login(store: Store, o: LoginOracle): (r: HandlerRun<LoginReply, LoginError>)
    ensures o.serializeError.Some? ==> r == HandlerRun(Failure(CsrfTokenSerialization(o.serializeError.value)), store, [])
    ensures o.serializeError.None? && o.save.Failure? ==>
      r == HandlerRun(Failure(CsrfTokenStorage(o.save.error)), store, [Save])
    ensures o.serializeError.None? && o.save.Success? ==>
      && r.store == store[o.save.value.key := map[CSRF_TOKEN := CsrfSecret(o.token)]]
      && r.trace == [Save]
      && (r.outcome.Success? <==> o.save.value.returned)
      && (r.outcome.Failure? ==> r.outcome.error == CsrfTokenStorageEmptyCookie)
    ensures r.outcome.Success? ==>
      r.outcome.value == LoginReply(SessionCookie(o.save.value.key), ProviderAuthorize(o.token, [USER_SCOPE]))
  {
    var location := ProviderAuthorize(o.token, [USER_SCOPE]);
    var pending: Session := map[CSRF_TOKEN := CsrfSecret(o.token)];
    if o.serializeError.Some? then HandlerRun(Failure(CsrfTokenSerialization(o.serializeError.value)), store, [])
    else match StoreSession(store, pending, o.save)
      case Failure(m) => HandlerRun(Failure(CsrfTokenStorage(m)), store, [Save])
      case Success((stored, id)) =>
        if id.None? then HandlerRun(Failure(CsrfTokenStorageEmptyCookie), stored, [Save])
        else HandlerRun(Success(LoginReply(SessionCookie(id.value), location)), stored, [Save])
  }

  /** Login's HTTP response: a temporary redirect to the provider with the pending cookie, or an empty 500. */
  function LoginResponse(outcome: Result<LoginReply, LoginError>): (r: AuthResponse)
    ensures outcome.Success? ==> r == TemporaryRedirect(outcome.value.location, Some(outcome.value.cookie))
    ensures outcome.Failure? ==> r == AuthResponse(INTERNAL_SERVER_ERROR, None, None, Details(""))
  {
    match outcome
    case Success(reply) => TemporaryRedirect(reply.location, Some(reply.cookie))
    case Failure(e) => ErrorResponse(FromLoginError(e))
  }

  // ---------------------------------------------------------------- logout

  /** `logout` once the lookup key is known. */
  function LogoutWithKey(key: string, store: Store, o: LogoutOracle): (r: HandlerRun<(), LogoutError>)
    ensures o.loadError.Some? ==> r == HandlerRun(Failure(SessionLoadError(o.loadError.value)), store, [Load(key)])
    ensures o.loadError.None? && key !in store ==> r == HandlerRun(Success(()), store, [Load(key)])
    ensures o.loadError.None? && key in store && o.destroyError.Some? ==>
      r == HandlerRun(Failure(SessionDestructionError(o.destroyError.value)), store, [Load(key), Destroy(key)])
    ensures r.outcome.Success? ==> r.store == store - {key}
    ensures r.store == store || r.store == store - {key}
  {
    match LoadSession(store, key, o.loadError)
    case Failure(m) => HandlerRun(Failure(SessionLoadError(m)), store, [Load(key)])
    case Success(loaded) =>
      if loaded.None? then HandlerRun(Success(()), store, [Load(key)])
      else match DestroySession(store, key, o.destroyError)
        case Failure(m) => HandlerRun(Failure(SessionDestructionError(m)), store, [Load(key), Destroy(key)])
        case Success(remaining) => HandlerRun(Success(()), remaining, [Load(key), Destroy(key)])
  }

  /** `logout` as written: no cookie means nothing to do; otherwise the store is asked for the
      whole rendered cookie `session=<value>`, not for the value. */
  function Logout(jar: CookieJar, store: Store, o: LogoutOracle): (r: HandlerRun<(), LogoutError>)
    ensures COOKIE_NAME !in jar ==> r == HandlerRun(Success(()), store, [])
    ensures COOKIE_NAME in jar && o.loadError.Some? ==> r.outcome == Failure(SessionLoadError(o.loadError.value))
    ensures COOKIE_NAME in jar && o.loadError.None? && RenderCookie(COOKIE_NAME, jar[COOKIE_NAME]) in store && o.destroyError.Some? ==>
      r.outcome == Failure(SessionDestructionError(o.destroyError.value))
    ensures COOKIE_NAME in jar ==> r.trace != [] && r.trace[0] == Load(RenderCookie(COOKIE_NAME, jar[COOKIE_NAME]))
    // the only session logout can remove is the one stored under the rendered cookie
    ensures r.store == store || (COOKIE_NAME in jar && r.store == store - {RenderCookie(COOKIE_NAME, jar[COOKIE_NAME])})
    ensures r.outcome.Success? && COOKIE_NAME in jar ==> RenderCookie(COOKIE_NAME, jar[COOKIE_NAME]) !in r.store
  {
    if COOKIE_NAME !in jar then HandlerRun(Success(()), store, [])
    else LogoutWithKey(RenderCookie(COOKIE_NAME, jar[COOKIE_NAME]), store, o)
  }

  /** Logout's HTTP response: `HomeRedirect` on success, an empty 500 otherwise. */
  function LogoutResponse(outcome: Result<(), LogoutError>): (r: AuthResponse)
    ensures outcome.Success? ==> r == HomeRedirect()
    ensures outcome.Failure? ==> r == AuthResponse(INTERNAL_SERVER_ERROR, None, None, Details(""))
  {
    match outcome
    case Success(_) => HomeRedirect()
    case Failure(e) => ErrorResponse(FromLogoutError(e))
  }
}
