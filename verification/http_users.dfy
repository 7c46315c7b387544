/** The HTTP view of users: DAO errors mapped to responses (http/users/errors.rs) and the
    transfer objects (http/users/dtos/entity.rs, create.rs, update.rs). */
module HttpUsers {
  import opened Wrappers
  import opened Common
  import opened HttpCommon
  import Users
  import UserErrors

  /** `From<CreateUserError> for AppError`. */
  function FromCreateUserError(e: UserErrors.CreateUserError): (r: AppError)
    ensures r.status == UNPROCESSABLE_ENTITY <==> e.CreateInvalidParams?
    ensures r.status == CONFLICT <==> e.AlreadyExists?
    ensures r.status == INTERNAL_SERVER_ERROR <==> e.CreateUnexpected?
    ensures r.details == UserErrors.CreateErrorText(e)
  {
    var status := match e
      case CreateInvalidParams => UNPROCESSABLE_ENTITY
      case AlreadyExists(_) => CONFLICT
      case CreateUnexpected => INTERNAL_SERVER_ERROR;
    AppError(status, UserErrors.CreateErrorText(e))
  }

  /** `From<DeleteUserError> for AppError`. */
  function FromDeleteUserError(e: UserErrors.DeleteUserError): (r: AppError)
    ensures r.status == NOT_FOUND <==> e.DeleteNoSuchEntity?
    ensures r.status == INTERNAL_SERVER_ERROR <==> e.DeleteUnexpected?
    ensures r.details == UserErrors.DeleteErrorText(e)
  {
    var status := match e
      case DeleteNoSuchEntity(_) => NOT_FOUND
      case DeleteUnexpected => INTERNAL_SERVER_ERROR;
    AppError(status, UserErrors.DeleteErrorText(e))
  }

  /** `From<GetUserError> for AppError`. */
  function FromGetUserError(e: UserErrors.GetUserError): (r: AppError)
    ensures r.status == NOT_FOUND <==> e.GetNoSuchEntity?
    ensures r.status == INTERNAL_SERVER_ERROR <==> e.GetUnexpected?
    ensures r.details == UserErrors.GetErrorText(e)
  {
    var status := match e
      case GetNoSuchEntity(_) => NOT_FOUND
      case GetUnexpected => INTERNAL_SERVER_ERROR;
    AppError(status, UserErrors.GetErrorText(e))
  }

  /** `From<UsersHealthError> for AppError`. */
  function FromUsersHealthError(e: UserErrors.UsersHealthError): (r: AppError)
    ensures r == AppError(INTERNAL_SERVER_ERROR, "Something went wrong")
  {
    match e
    case HealthUnexpected => AppError(INTERNAL_SERVER_ERROR, "Something went wrong")
  }

  /** `From<UpdateUserError> for AppError`. */
  function FromUpdateUserError(e: UserErrors.UpdateUserError): (r: AppError)
    ensures r.status == UNPROCESSABLE_ENTITY <==> e.UpdateInvalidParams?
    ensures r.status == NOT_FOUND <==> e.UpdateNoSuchEntity?
    ensures r.status == INTERNAL_SERVER_ERROR <==> e.UpdateUnexpected?
    ensures r.details == UserErrors.UpdateErrorText(e)
  {
    var status := match e
      case UpdateInvalidParams => UNPROCESSABLE_ENTITY
      case UpdateNoSuchEntity(_) => NOT_FOUND
      case UpdateUnexpected => INTERNAL_SERVER_ERROR;
    AppError(status, UserErrors.UpdateErrorText(e))
  }

  /** Any rejected name, whether at creation or on rename, reaches the client as a 422. */
  lemma ValidationFailuresAre422(c: Users.CreateUserValidationError, u: Users.UpdateUserValidationError)
    ensures FromCreateUserError(UserErrors.FromCreateValidation(c)).status == UNPROCESSABLE_ENTITY
    ensures FromUpdateUserError(UserErrors.FromUpdateValidation(u)).status == UNPROCESSABLE_ENTITY
  {
  }

  // ---------------------------------------------------------------- transfer objects

  datatype HttpUserAuthType = HttpGithub

  /** `From<UserAuthType> for HttpUserAuthType`. */
  function FromAuthType(t: Users.UserAuthType): HttpUserAuthType {
    match t
    case Github => HttpGithub
  }

  /** `From<HttpUserAuthType> for UserAuthType`. */
  function ToAuthType(t: HttpUserAuthType): Users.UserAuthType {
    match t
    case HttpGithub => Users.Github
  }

  /** The two conversions are mutually inverse. */
  lemma AuthTypeRoundTrip(t: Users.UserAuthType, h: HttpUserAuthType)
    ensures ToAuthType(FromAuthType(t)) == t
    ensures FromAuthType(ToAuthType(h)) == h
  {
  }

  /** The wire name (`rename_all = "lowercase"`). */
  function AuthTypeWireName(t: HttpUserAuthType): string {
    match t
    case HttpGithub => "github"
  }

  function ParseAuthType(s: string): (r: Option<HttpUserAuthType>)
    ensures r.Some? ==> AuthTypeWireName(r.value) == s
  {
    if s == "github" then Some(HttpGithub) else None
  }

  /** Every auth type reads back from its wire name. */
  lemma AuthTypeWireRoundTrip(t: HttpUserAuthType)
    ensures ParseAuthType(AuthTypeWireName(t)) == Some(t)
  {
  }

  datatype HttpUser = HttpUser(
    id: Uuid,
    name: string,
    authType: HttpUserAuthType,
    externalId: string,
    createdAt: Timestamp,
    updatedAt: Timestamp)

  /** `From<User> for HttpUser`: a field-by-field copy with the auth type converted. */
  function FromUser(u: Users.User): (r: HttpUser)
    ensures r.id == u.id && r.name == u.name && ToAuthType(r.authType) == u.authType
    ensures r.externalId == u.externalId && r.createdAt == u.createdAt && r.updatedAt == u.updatedAt
  {
    HttpUser(u.id, u.name, FromAuthType(u.authType), u.externalId, u.createdAt, u.updatedAt)
  }

  /** The HTTP view loses nothing: distinct users are shown differently. */
  lemma FromUserInjective(a: Users.User, b: Users.User)
    requires FromUser(a) == FromUser(b)
    ensures a == b
  {
    AuthTypeRoundTrip(a.authType, FromUser(a).authType);
    AuthTypeRoundTrip(b.authType, FromUser(b).authType);
  }

  datatype HttpCreateUserParams = HttpCreateUserParams(name: string, authType: HttpUserAuthType, externalId: string)

  /** `From<HttpCreateUserParams> for CreateUserParams`. */
  function ToCreateUserParams(p: HttpCreateUserParams): (r: Users.CreateUserParams)
    ensures r.name == p.name && r.externalId == p.externalId && FromAuthType(r.authType) == p.authType
  {
    Users.CreateUserParams(p.name, ToAuthType(p.authType), p.externalId)
  }

  datatype HttpUpdateUserParams = HttpUpdateUserParams(name: string)

  /** `From<HttpUpdateUserParams> for UpdateUserParams`. */
  function ToUpdateUserParams(p: HttpUpdateUserParams): (r: Users.UpdateUserParams)
    ensures r.name == p.name
  {
    Users.UpdateUserParams(p.name)
  }

  /** A user created from an HTTP request shows the request's fields back in the response. */
  lemma CreateEcho(p: HttpCreateUserParams, freshId: Uuid, now: Timestamp)
    requires Users.UserFromParams(ToCreateUserParams(p), freshId, now).Success?
    ensures var shown := FromUser(Users.UserFromParams(ToCreateUserParams(p), freshId, now).value);
      shown == HttpUser(freshId, p.name, p.authType, p.externalId, now, now)
  {
    AuthTypeRoundTrip(Users.Github, p.authType);
  }
}
