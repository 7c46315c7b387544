/** The typed authentication errors and their HTTP mapping (http/authentication/errors.rs).
    Each error keeps the dependency's own message (`internal`) for the log; none of it reaches
    the client, which only ever sees an empty 500. */
module AuthErrors {
  import opened HttpCommon

  datatype AuthCallbackError =
    | NoSuchCookie(cookieName: string)
    | SessionLoadingFailed(internal: string)
    | InappropriateCookieFormat
    | EmptySession
    | CsrfTokenDeserializationError
    | CsrfTokenSessionDestructionError(internal: string)
    | CsrfTokensMismatch
    | CodeExchangeError(internal: string)
    | UserInfoRequestError(internal: string)
    | UserInfoDeserializeResponseError(internal: string)
    | UserInfoSerializationError(internal: string)
    | UserInfoStorageError(internal: string)
    | UserInfoStorageEmptyCookie

  datatype LoginError =
    | CsrfTokenSerialization(internal: string)
    | CsrfTokenStorage(internal: string)
    | CsrfTokenStorageEmptyCookie

  datatype LogoutError =
    | SessionLoadError(internal: string)
    | SessionDestructionError(internal: string)

  /** `From<AuthCallbackError> for AppError`: every variant is a 500 with no details. */
  function FromCallbackError(e: AuthCallbackError): (r: AppError)
    ensures r.status == INTERNAL_SERVER_ERROR && r.details == ""
  {
    var status := match e
      case NoSuchCookie(_) | InappropriateCookieFormat | SessionLoadingFailed(_) | EmptySession
        | CsrfTokenDeserializationError | CsrfTokenSessionDestructionError(_) | CsrfTokensMismatch
        | CodeExchangeError(_) | UserInfoRequestError(_) | UserInfoDeserializeResponseError(_)
        | UserInfoSerializationError(_) | UserInfoStorageError(_) | UserInfoStorageEmptyCookie
        => INTERNAL_SERVER_ERROR;
    AppError(status, "")
  }

  /** `From<LoginError> for AppError`: every variant is a 500 with no details. */
  function FromLoginError(e: LoginError): (r: AppError)
    ensures r.status == INTERNAL_SERVER_ERROR && r.details == ""
  {
    var status := match e
      case CsrfTokenSerialization(_) | CsrfTokenStorageEmptyCookie | CsrfTokenStorage(_) => INTERNAL_SERVER_ERROR;
    AppError(status, "")
  }

  /** `From<LogoutError> for AppError`: every variant is a 500 with no details. */
  function FromLogoutError(e: LogoutError): (r: AppError)
    ensures r.status == INTERNAL_SERVER_ERROR && r.details == ""
  {
    var status := match e
      case SessionLoadError(_) | SessionDestructionError(_) => INTERNAL_SERVER_ERROR;
    AppError(status, "")
  }

  /** The client cannot tell two failures apart, whatever their kind or internal message: a
      forged `state` answers exactly like a store outage. */
  lemma ErrorsIndistinguishable(a: AuthCallbackError, b: AuthCallbackError, c: LoginError, d: LoginError, e: LogoutError, f: LogoutError)
    ensures FromCallbackError(a) == FromCallbackError(b)
    ensures FromLoginError(c) == FromLoginError(d)
    ensures FromLogoutError(e) == FromLogoutError(f)
  {
  }
}
