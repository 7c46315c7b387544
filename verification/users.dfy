/** Users: the `User` entity with its validating constructor and `set_name`, and the parameter
    records that create and update one (dao/users/dtos/entity.rs, create.rs, update.rs). */
module Users {
  import opened Wrappers
  import opened Text
  import opened Common
  import opened Validation

  datatype UserAuthType = Github

  datatype User = User(
    id: Uuid,
    name: string,
    authType: UserAuthType,
    externalId: string,
    createdAt: Timestamp,
    updatedAt: Timestamp)

  /** What `User::new` guarantees of every user it returns. */
  predicate ValidUser(u: User) {
    ValidText(u.name) && ValidText(u.externalId) && u.createdAt <= u.updatedAt
  }

  datatype CreateUserValidationError =
    | NameIsEmpty
    | NameTooLong(name: string)
    | ExternalIdIsEmpty
    | ExternalIdTooLong(externalId: string)
    | UpdatedBeforeCreation(updatedAt: Timestamp, createdAt: Timestamp)

  /** Errors of `set_name`; a separate enum in the program, hence the separate constructor names. */
  datatype UpdateUserValidationError =
    | UpdateNameIsEmpty
    | UpdateNameTooLong(name: string)

  /** `User::new`: name, then external id, then the time order; the first failure is reported. */
  function New(id: Uuid, name: string, authType: UserAuthType, externalId: string,
               createdAt: Timestamp, updatedAt: Timestamp): (r: Result<User, CreateUserValidationError>)
    ensures r.Success? <==> ValidText(name) && ValidText(externalId) && createdAt <= updatedAt
    ensures r.Success? ==> r.value == User(id, name, authType, externalId, createdAt, updatedAt) && ValidUser(r.value)
    ensures !ValidText(name) ==> r == Failure(if name == [] then NameIsEmpty else NameTooLong(name))
    ensures ValidText(name) && !ValidText(externalId) ==>
      r == Failure(if externalId == [] then ExternalIdIsEmpty else ExternalIdTooLong(externalId))
    ensures ValidText(name) && ValidText(externalId) && updatedAt < createdAt ==>
      r == Failure(UpdatedBeforeCreation(updatedAt, createdAt))
  {
    if name == [] then Failure(NameIsEmpty)
    else if Utf8Len(name) > MAX_LENGTH then Failure(NameTooLong(name))
    else if externalId == [] then Failure(ExternalIdIsEmpty)
    else if Utf8Len(externalId) > MAX_LENGTH then Failure(ExternalIdTooLong(externalId))
    else if updatedAt < createdAt then Failure(UpdatedBeforeCreation(updatedAt, createdAt))
    else Success(User(id, name, authType, externalId, createdAt, updatedAt))
  }

  /** Every valid user is accepted by `New` from its own fields, and nothing else is. */
  lemma NewRoundTrip(u: User)
    ensures New(u.id, u.name, u.authType, u.externalId, u.createdAt, u.updatedAt) == Success(u) <==> ValidUser(u)
  {
  }

  /** `set_name` mutates the user in place, so the model returns the user as the call leaves it. */
  datatype SetNameRun = SetNameRun(result: Result<(), UpdateUserValidationError>, user: User)

  /** `User::set_name`: on a valid name, store it and move the update time to `now`; otherwise
      report the error and leave the user untouched. */
  function SetName(u: User, name: string, now: Timestamp): (r: SetNameRun)
    ensures r.result.Success? <==> ValidText(name)
    ensures r.result.Success? ==> r.user == u.(name := name, updatedAt := now)
    ensures r.result.Failure? ==> r.user == u
    ensures r.result.Failure? ==>
      r.result.error == (if name == [] then UpdateNameIsEmpty else UpdateNameTooLong(name))
  {
    if name == [] then SetNameRun(Failure(UpdateNameIsEmpty), u)
    else if Utf8Len(name) > MAX_LENGTH then SetNameRun(Failure(UpdateNameTooLong(name)), u)
    else SetNameRun(Success(()), u.(name := name, updatedAt := now))
  }

  /** `set_name` keeps a valid user valid exactly when the clock has not gone back past the
      creation time: unlike `User::new`, it does not compare `now` with `created_at`. */
  lemma SetNameValidity(u: User, name: string, now: Timestamp)
    requires ValidUser(u) && ValidText(name)
    ensures ValidUser(SetName(u, name, now).user) <==> u.createdAt <= now
  {
  }

  datatype CreateUserParams = CreateUserParams(name: string, authType: UserAuthType, externalId: string)

  /** `TryInto<User>` of the params: a fresh user whose creation and update times coincide, so the
      time check cannot fail. */
  function UserFromParams(p: CreateUserParams, freshId: Uuid, now: Timestamp): (r: Result<User, CreateUserValidationError>)
    ensures r.Success? <==> ValidText(p.name) && ValidText(p.externalId)
    ensures r.Success? ==> r.value == User(freshId, p.name, p.authType, p.externalId, now, now)
    ensures r.Failure? ==> !r.error.UpdatedBeforeCreation?
  {
    New(freshId, p.name, p.authType, p.externalId, now, now)
  }

  datatype UpdateUserParams = UpdateUserParams(name: string)

  /** `User::try_update`: the params' name goes through `set_name`. */
  function TryUpdate(u: User, p: UpdateUserParams, now: Timestamp): (r: SetNameRun)
    ensures r.result.Success? <==> ValidText(p.name)
    ensures r.result.Success? ==> r.user.name == p.name && r.user.updatedAt == now
    ensures r.user.id == u.id && r.user.authType == u.authType
    ensures r.user.externalId == u.externalId && r.user.createdAt == u.createdAt
    ensures r.result.Failure? ==> r.user == u
  {
    SetName(u, p.name, now)
  }
}

/** The DAO error enums for users and their conversions from the validation errors
    (dao/users/errors.rs). */
module UserErrors {
  import opened Common
  import Users

  datatype CreateUserError = CreateInvalidParams | AlreadyExists(id: Uuid) | CreateUnexpected
  datatype GetUserError = GetNoSuchEntity(id: Uuid) | GetUnexpected
  datatype UpdateUserError = UpdateInvalidParams | UpdateNoSuchEntity(id: Uuid) | UpdateUnexpected
  datatype DeleteUserError = DeleteNoSuchEntity(id: Uuid) | DeleteUnexpected
  datatype UsersHealthError = HealthUnexpected

  /** `From<CreateUserValidationError>`: every validation failure becomes `InvalidParams`. */
  function FromCreateValidation(e: Users.CreateUserValidationError): (r: CreateUserError)
    ensures r == CreateInvalidParams
  {
    CreateInvalidParams
  }

  /** `From<UpdateUserValidationError>`: every validation failure becomes `InvalidParams`. */
  function FromUpdateValidation(e: Users.UpdateUserValidationError): (r: UpdateUserError)
    ensures r == UpdateInvalidParams
  {
    UpdateInvalidParams
  }

  function NoSuchEntityText(id: Uuid): string {
    "Entity with id '" + UuidDebug(id) + "' doesn't exist in our records"
  }

  /** Display texts (`#[error(...)]`). */
  function CreateErrorText(e: CreateUserError): string {
    match e
    case CreateInvalidParams => "Cannot create entity from given params"
    case AlreadyExists(id) => "Entity with id '" + UuidDebug(id) + "' already exists in our records"
    case CreateUnexpected => "Something went wrong"
  }

  function GetErrorText(e: GetUserError): string {
    match e
    case GetNoSuchEntity(id) => NoSuchEntityText(id)
    case GetUnexpected => "Something went wrong"
  }

  function UpdateErrorText(e: UpdateUserError): string {
    match e
    case UpdateInvalidParams => "Cannot update entity with given params"
    case UpdateNoSuchEntity(id) => NoSuchEntityText(id)
    case UpdateUnexpected => "Something went wrong"
  }

  function DeleteErrorText(e: DeleteUserError): string {
    match e
    case DeleteNoSuchEntity(id) => NoSuchEntityText(id)
    case DeleteUnexpected => "Something went wrong"
  }
}
