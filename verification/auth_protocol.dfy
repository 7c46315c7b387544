/** Properties of the authentication protocol as a whole: the two handler families agree, a
    login followed by its callback creates exactly one identity session, the CSRF token is
    single-use, and the session lookup of logout and of the `UserInfo` extractor. */
module AuthProtocol {
  import opened Wrappers
  import opened AuthSession
  import E = AuthErrors
  import T = AuthHandlers
  import G = AuthGeneric

  // ---------------------------------------------------------------- the two handler families agree

  /** Drop the internal message of a typed callback error. The format error has no generic
      counterpart: where the typed callback reports it, the generic one panics. */
  function EraseCallbackError(e: E.AuthCallbackError): (r: G.CallbackError)
    requires !e.InappropriateCookieFormat?
    ensures r.NoSuchCookie? <==> e.NoSuchCookie?
    ensures r.CsrfTokensMismatch? <==> e.CsrfTokensMismatch?
    ensures r.EmptySession? <==> e.EmptySession?
    ensures G.FromCallbackError(r) == E.FromCallbackError(e)
  {
    match e
    case NoSuchCookie(n) => G.NoSuchCookie(n)
    case SessionLoadingFailed(_) => G.SessionLoadingFailed
    case EmptySession => G.EmptySession
    case CsrfTokenDeserializationError => G.CsrfTokenDeserializationError
    case CsrfTokenSessionDestructionError(_) => G.CsrfTokenSessionDestructionError
    case CsrfTokensMismatch => G.CsrfTokensMismatch
    case CodeExchangeError(_) => G.CodeExchangeError
    case UserInfoRequestError(_) => G.UserInfoRequestError
    case UserInfoDeserializeResponseError(_) => G.UserInfoDeserializeResponseError
    case UserInfoSerializationError(_) => G.UserInfoSerializationError
    case UserInfoStorageError(_) => G.UserInfoStorageError
    case UserInfoStorageEmptyCookie => G.UserInfoStorageEmptyCookie
  }

  function EraseCallbackRun(run: HandlerRun<T.CallbackReply, E.AuthCallbackError>): (r: HandlerRun<T.CallbackReply, G.CallbackError>)
    requires run.outcome != Failure(E.InappropriateCookieFormat)
    ensures r.store == run.store && r.trace == run.trace
    ensures r.outcome.Success? <==> run.outcome.Success?
    ensures r.outcome.Success? ==> r.outcome.value == run.outcome.value
  {
    match run.outcome
    case Success(v) => HandlerRun(Success(v), run.store, run.trace)
    case Failure(e) => HandlerRun(Failure(EraseCallbackError(e)), run.store, run.trace)
  }

  function EraseLoginError(e: E.LoginError): (r: G.LoginError)
    ensures G.FromLoginError(r) == E.FromLoginError(e)
    ensures r.CsrfTokenStorageEmptyCookie? <==> e.CsrfTokenStorageEmptyCookie?
  {
    match e
    case CsrfTokenSerialization(_) => G.CsrfTokenSerialization
    case CsrfTokenStorage(_) => G.CsrfTokenStorage
    case CsrfTokenStorageEmptyCookie => G.CsrfTokenStorageEmptyCookie
  }

  lemma {:induction false} AfterDestroyAgree(secret: string, q: T.CallbackQuery, store: Store, o: CallbackOracle, trace: seq<Effect>)
    ensures T.CallbackAfterDestroy(secret, q, store, o, trace).outcome != Failure(E.InappropriateCookieFormat)
    ensures G.CallbackAfterDestroy(secret, q, store, o, trace) == EraseCallbackRun(T.CallbackAfterDestroy(secret, q, store, o, trace))
  {
  }

  lemma {:induction false} WithKeyAgree(key: string, q: T.CallbackQuery, store: Store, o: CallbackOracle)
    ensures T.CallbackWithKey(key, q, store, o).outcome != Failure(E.InappropriateCookieFormat)
    ensures G.CallbackWithKey(key, q, store, o) == EraseCallbackRun(T.CallbackWithKey(key, q, store, o))
  {
    if o.loadError.None? && key in store && CsrfTokenOf(store[key]).Some? && o.destroyError.None? {
      AfterDestroyAgree(CsrfTokenOf(store[key]).value, q, store - {key}, o, [Load(key), Destroy(key)]);
    }
  }

  /** The generic callback is the typed one with the internal messages erased: same store,
      same calls, same reply, and never the format error (nor, therefore, the panic). */
  lemma CallbackVariantsAgree(jar: CookieJar, q: T.CallbackQuery, store: Store, o: CallbackOracle)
    ensures T.Callback(jar, q, store, o).outcome != Failure(E.InappropriateCookieFormat)
    ensures G.Callback(jar, q, store, o) == G.Completed(EraseCallbackRun(T.Callback(jar, q, store, o)))
  {
    if COOKIE_NAME in jar {
      WithKeyAgree(jar[COOKIE_NAME], q, store, o);
    }
  }

  /** The generic login is the typed one with the internal messages erased. */
  lemma LoginVariantsAgree(store: Store, o: LoginOracle)
    ensures var t := T.Login(store, o);
            var g := G.Login(store, o);
            && g.store == t.store && g.trace == t.trace
            && (g.outcome.Success? <==> t.outcome.Success?)
            && (t.outcome.Success? ==> g.outcome.value == t.outcome.value)
            && (t.outcome.Failure? ==> g.outcome.error == EraseLoginError(t.outcome.error))
  {
  }

  /** The generic logout is the typed one with both failures folded into `UnexpectedError`. */
  lemma LogoutVariantsAgree(jar: CookieJar, store: Store, o: LogoutOracle)
    ensures var t := T.Logout(jar, store, o);
            var g := G.Logout(jar, store, o);
            && g.store == t.store && g.trace == t.trace
            && (g.outcome.Success? <==> t.outcome.Success?)
            && (t.outcome.Failure? ==> g.outcome == Failure(G.UnexpectedError))
  {
  }

  // ---------------------------------------------------------------- the session lookup, corrected

  /** The `UserInfo` extractor looking the session up under the cookie's value, the key the
      callback stored it under. */
  function CorrectedGuard(jar: CookieJar, store: Store, loadError: Option<string>): (r: Result<UserInfo, G.Rejection>)
    ensures r.Success? <==>
      && COOKIE_NAME in jar && loadError.None?
      && (var key := jar[COOKIE_NAME]; key in store && USER_INFO in store[key] && store[key][USER_INFO].Identity?)
    ensures r.Success? ==> store[jar[COOKIE_NAME]][USER_INFO] == Identity(r.value)
  {
    if COOKIE_NAME !in jar then Failure(G.ToAuth)
    else G.GuardWithKey(jar[COOKIE_NAME], store, loadError)
  }

  /** Logout looking the session up under the cookie's value. */
  function CorrectedLogout(jar: CookieJar, store: Store, o: LogoutOracle): (r: HandlerRun<(), E.LogoutError>)
    ensures COOKIE_NAME !in jar ==> r == HandlerRun(Success(()), store, [])
    ensures COOKIE_NAME in jar && o.loadError.Some? ==> r.outcome == Failure(E.SessionLoadError(o.loadError.value))
    ensures COOKIE_NAME in jar && o.loadError.None? && jar[COOKIE_NAME] in store && o.destroyError.Some? ==>
      r.outcome == Failure(E.SessionDestructionError(o.destroyError.value))
    ensures r.store == store || (COOKIE_NAME in jar && r.store == store - {jar[COOKIE_NAME]})
    ensures r.outcome.Success? && COOKIE_NAME in jar ==> jar[COOKIE_NAME] !in r.store
  {
    if COOKIE_NAME !in jar then HandlerRun(Success(()), store, [])
    else T.LogoutWithKey(jar[COOKIE_NAME], store, o)
  }

  /** A store in which no key begins with `session=`, the prefix of every rendered cookie.
      Keys may still contain `=` anywhere else, as base64 padding does. */
  predicate NoRenderedKeys(store: Store) {
    forall k :: k in store ==> !(COOKIE_NAME + "=" <= k)
  }

  lemma RenderedNotStored(store: Store, v: string)
    requires NoRenderedKeys(store)
    ensures RenderCookie(COOKIE_NAME, v) !in store
  {
    assert COOKIE_NAME + "=" <= RenderCookie(COOKIE_NAME, v);
  }

  /** As written, the extractor never admits the session a successful callback created: it
      asks for `session=<id>` while the identity sits under `<id>`. */
  lemma AsWrittenGuardRejectsCallbackSession(jar: CookieJar, q: T.CallbackQuery, store: Store, o: CallbackOracle, loadError: Option<string>)
    requires T.Callback(jar, q, store, o).outcome.Success?
    requires NoRenderedKeys(store)
    ensures o.save.Success?
    ensures G.Guard(map[COOKIE_NAME := o.save.value.key], T.Callback(jar, q, store, o).store, loadError).Failure?
  {
    var s := o.save.value.key;
    var after := T.Callback(jar, q, store, o).store;
    var rendered := RenderCookie(COOKIE_NAME, s);
    RenderedCookieDiffers(s);
    RenderedNotStored(store, s);
    assert rendered !in after;
  }

  /** As written, logout leaves the session a successful callback created in the store. */
  lemma AsWrittenLogoutKeepsCallbackSession(jar: CookieJar, q: T.CallbackQuery, store: Store, o: CallbackOracle, lo: LogoutOracle)
    requires T.Callback(jar, q, store, o).outcome.Success?
    requires NoRenderedKeys(store)
    ensures o.save.Success?
    ensures var after := T.Callback(jar, q, store, o).store;
            var out := T.Logout(map[COOKIE_NAME := o.save.value.key], after, lo);
            && out.store == after
            && o.save.value.key in out.store
            && (lo.loadError.None? ==> out.outcome.Success?)
  {
    var s := o.save.value.key;
    RenderedCookieDiffers(s);
    RenderedNotStored(store, s);
  }

  /** The input that shows it: a pending session `p` holding token `t`, a callback with state
      `t` whose identity is saved under `s`. The extractor as written turns the new cookie
      away; the corrected one admits it. Logout as written keeps `s`; corrected, it removes it. */
  lemma LookupKeyCounterexample()
    ensures var o := CallbackOracle(None, None, Success("token"), Fetched(UserInfo(7)), None, Success(StoreReply("s", true)));
            var cb := T.Callback(map[COOKIE_NAME := "p"], T.CallbackQuery("code", "t"), map["p" := map[CSRF_TOKEN := CsrfSecret("t")]], o);
            var jar := map[COOKIE_NAME := "s"];
            var lo := LogoutOracle(None, None);
            && cb.outcome.Success?
            && cb.store == map["s" := map[USER_INFO := Identity(UserInfo(7))]]
            && G.Guard(jar, cb.store, None) == Failure(G.ToAuth)
            && CorrectedGuard(jar, cb.store, None) == Success(UserInfo(7))
            && T.Logout(jar, cb.store, lo).store == cb.store
            && CorrectedLogout(jar, cb.store, lo).store == map[]
  {
    var pending: Store := map["p" := map[CSRF_TOKEN := CsrfSecret("t")]];
    assert pending - {"p"} == map[];
    assert RenderCookie(COOKIE_NAME, "s") != "s";
    var after: Store := map["s" := map[USER_INFO := Identity(UserInfo(7))]];
    assert after - {"s"} == map[];
  }

  // ---------------------------------------------------------------- the protocol, end to end

  /** A login and a callback that presents its cookie and the matching state: the pending
      session is gone and exactly one identity session has been added. */
  lemma LoginThenCallback(store: Store, lo: LoginOracle, q: T.CallbackQuery, co: CallbackOracle)
    requires lo.serializeError.None? && lo.save.Success? && lo.save.value.returned && FreshSave(lo.save, store)
    requires q.state == lo.token
    requires co.loadError.None? && co.destroyError.None? && co.exchange.Success? && co.fetch.Fetched? && co.serializeError.None?
    requires co.save.Success? && co.save.value.returned
    ensures var login := T.Login(store, lo);
            && login.outcome.Success?
            && var cb := T.Callback(map[COOKIE_NAME := login.outcome.value.cookie.value], q, login.store, co);
               && cb.outcome == Success(T.CallbackReply(SessionCookie(co.save.value.key), co.fetch.info))
               && cb.store == store[co.save.value.key := map[USER_INFO := Identity(co.fetch.info)]]
               && ExchangesCode(cb.trace)
  {
    var k := lo.save.value.key;
    var login := T.Login(store, lo);
    assert login.store - {k} == store;
    var cb := T.Callback(map[COOKIE_NAME := k], q, login.store, co);
    assert cb.trace[2].ExchangeCode?;
  }

  /** The provider's code is exchanged only when the pending session's token equals `state`. */
  lemma NoExchangeWithoutMatchingToken(jar: CookieJar, q: T.CallbackQuery, store: Store, o: CallbackOracle)
    ensures ExchangesCode(T.Callback(jar, q, store, o).trace) ==>
      && COOKIE_NAME in jar
      && jar[COOKIE_NAME] in store && CsrfTokenOf(store[jar[COOKIE_NAME]]) == Some(q.state)
  {
    var r := T.Callback(jar, q, store, o);
    if ExchangesCode(r.trace) {
      if COOKIE_NAME !in jar {
        assert false;
      }
      var key := jar[COOKIE_NAME];
      var i :| 0 <= i < |r.trace| && r.trace[i].ExchangeCode?;
      if !(key in store && CsrfTokenOf(store[key]) == Some(q.state)) {
        assert false;
      }
    }
  }

  /** The CSRF token is single-use: once a callback has succeeded, the same request presented
      again finds no pending session. */
  lemma ReplayRejected(jar: CookieJar, q: T.CallbackQuery, store: Store, o: CallbackOracle, o2: CallbackOracle)
    requires COOKIE_NAME in jar
    requires T.Callback(jar, q, store, o).outcome.Success?
    requires o.save.Success? && o.save.value.key != jar[COOKIE_NAME]
    requires o2.loadError.None?
    ensures T.Callback(jar, q, T.Callback(jar, q, store, o).store, o2).outcome == Failure(E.EmptySession)
  {
  }

  /** Whatever key the store hands out, the same callback presented again fails: either the
      pending session is gone, or its key now holds the identity session, which has no token. */
  lemma ReplayFails(jar: CookieJar, q: T.CallbackQuery, store: Store, o: CallbackOracle, o2: CallbackOracle)
    requires T.Callback(jar, q, store, o).outcome.Success?
    ensures T.Callback(jar, q, T.Callback(jar, q, store, o).store, o2).outcome.Failure?
  {
  }

  /** Logging out twice is logging out once, whatever key the store is asked for: after a
      successful logout the key holds no session, so a second logout finds nothing to destroy. */
  lemma LogoutWithKeyIdempotent(key: string, store: Store, o1: LogoutOracle, o2: LogoutOracle)
    requires T.LogoutWithKey(key, store, o1).outcome.Success?
    requires o2.loadError.None?
    ensures var first := T.LogoutWithKey(key, store, o1);
            var second := T.LogoutWithKey(key, first.store, o2);
            second.outcome.Success? && second.store == first.store && key !in second.store
  {
  }

  /** The as-written typed logout is idempotent. */
  lemma LogoutIdempotentAsWritten(jar: CookieJar, store: Store, o1: LogoutOracle, o2: LogoutOracle)
    requires T.Logout(jar, store, o1).outcome.Success?
    requires o2.loadError.None?
    ensures var first := T.Logout(jar, store, o1);
            var second := T.Logout(jar, first.store, o2);
            second.outcome.Success? && second.store == first.store
  {
    if COOKIE_NAME in jar {
      LogoutWithKeyIdempotent(RenderCookie(COOKIE_NAME, jar[COOKIE_NAME]), store, o1, o2);
    }
  }

  /** The generic logout is idempotent. */
  lemma LogoutIdempotentGeneric(jar: CookieJar, store: Store, o1: LogoutOracle, o2: LogoutOracle)
    requires G.Logout(jar, store, o1).outcome.Success?
    requires o2.loadError.None?
    ensures var first := G.Logout(jar, store, o1);
            var second := G.Logout(jar, first.store, o2);
            second.outcome.Success? && second.store == first.store
  {
    LogoutVariantsAgree(jar, store, o1);
    LogoutIdempotentAsWritten(jar, store, o1, o2);
    LogoutVariantsAgree(jar, T.Logout(jar, store, o1).store, o2);
  }

  /** The corrected logout is idempotent. */
  lemma LogoutIdempotent(jar: CookieJar, store: Store, o1: LogoutOracle, o2: LogoutOracle)
    requires CorrectedLogout(jar, store, o1).outcome.Success?
    requires o2.loadError.None?
    ensures var first := CorrectedLogout(jar, store, o1);
            var second := CorrectedLogout(jar, first.store, o2);
            second.outcome.Success? && second.store == first.store
  {
    if COOKIE_NAME in jar {
      LogoutWithKeyIdempotent(jar[COOKIE_NAME], store, o1, o2);
    }
  }

  /** A whole session with the corrected lookup: after login and callback the extractor admits
      the new cookie with the fetched identity; after logout it turns the same cookie away. */
  lemma SessionLifecycle(store: Store, jar: CookieJar, q: T.CallbackQuery, o: CallbackOracle, lo: LogoutOracle)
    requires T.Callback(jar, q, store, o).outcome.Success?
    requires lo.loadError.None? && lo.destroyError.None?
    ensures o.save.Success? && o.fetch.Fetched?
    ensures var session := map[COOKIE_NAME := o.save.value.key];
            var after := T.Callback(jar, q, store, o).store;
            && CorrectedGuard(session, after, None) == Success(o.fetch.info)
            && var out := CorrectedLogout(session, after, lo);
               && out.outcome.Success?
               && out.store == after - {o.save.value.key}
               && CorrectedGuard(session, out.store, None).Failure?
  {
  }
}
