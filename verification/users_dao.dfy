/** The users DAO: the in-memory implementation over a hash map (dao/users/impls/hash_map.rs) and
    the mocked implementation (dao/users/impls/mocked.rs). */
module UsersDao {
  import opened Wrappers
  import opened Common
  import opened Validation
  import opened Users
  import opened UserErrors

  type UserMap = map<Uuid, User>

  /** The map keeps every user under its own id. */
  predicate Keyed(data: UserMap) {
    forall k :: k in data ==> data[k].id == k
  }

  // ---------------------------------------------------------------- hash-map implementation

  /** `UsersHashMapDao::create`. */
  function HashMapCreate(data: UserMap, params: CreateUserParams, freshId: Uuid, now: Timestamp): (r: Run<User, CreateUserError, UserMap>)
    ensures r.result.Success? <==> ValidText(params.name) && ValidText(params.externalId) && freshId !in data
    ensures r.result.Success? ==>
      && r.result.value == User(freshId, params.name, params.authType, params.externalId, now, now)
      && r.after == data[freshId := r.result.value]
    ensures r.result.Failure? ==> r.after == data
    ensures r.result == Failure(CreateInvalidParams) <==> !(ValidText(params.name) && ValidText(params.externalId))
    ensures r.result == Failure(AlreadyExists(freshId)) <==>
      ValidText(params.name) && ValidText(params.externalId) && freshId in data
    ensures Keyed(data) ==> Keyed(r.after)
  {
    match UserFromParams(params, freshId, now)
    case Failure(e) => Run(Failure(FromCreateValidation(e)), data)
    case Success(entity) =>
      if entity.id in data then Run(Failure(AlreadyExists(entity.id)), data)
      else Run(Success(entity), data[entity.id := entity])
  }

  /** `UsersHashMapDao::get`. */
  function HashMapGet(data: UserMap, id: Uuid): (r: Result<User, GetUserError>)
    ensures r.Success? <==> id in data
    ensures r.Success? ==> r.value == data[id]
    ensures r.Failure? ==> r.error == GetNoSuchEntity(id)
  {
    if id in data then Success(data[id]) else Failure(GetNoSuchEntity(id))
  }

  /** `UsersHashMapDao::update`: `try_update` runs on the stored user in place; on a rejected
      name the stored user is left as it was. */
  function HashMapUpdate(data: UserMap, id: Uuid, params: UpdateUserParams, now: Timestamp): (r: Run<User, UpdateUserError, UserMap>)
    ensures r.result.Success? <==> id in data && ValidText(params.name)
    ensures r.result.Success? ==>
      && r.result.value == data[id].(name := params.name, updatedAt := now)
      && r.after == data[id := r.result.value]
    ensures r.result.Failure? ==> r.after == data
    ensures r.result == Failure(UpdateNoSuchEntity(id)) <==> id !in data
    ensures r.result == Failure(UpdateInvalidParams) <==> id in data && !ValidText(params.name)
    ensures Keyed(data) ==> Keyed(r.after)
  {
    if id in data then
      var run := TryUpdate(data[id], params, now);
      var after := data[id := run.user];
      match run.result
      case Failure(e) => Run(Failure(FromUpdateValidation(e)), after)
      case Success(_) => Run(Success(run.user), after)
    else Run(Failure(UpdateNoSuchEntity(id)), data)
  }

  /** `UsersHashMapDao::delete`. */
  function HashMapDelete(data: UserMap, id: Uuid): (r: Run<(), DeleteUserError, UserMap>)
    ensures r.result.Success? <==> id in data
    ensures r.after == data - {id}
    ensures r.result.Failure? ==> r.result.error == DeleteNoSuchEntity(id)
    ensures Keyed(data) ==> Keyed(r.after)
  {
    if id in data then Run(Success(()), data - {id}) else Run(Failure(DeleteNoSuchEntity(id)), data)
  }

  /** `health` of both implementations. */
  function Health(): (r: Result<(), UsersHealthError>)
    ensures r.Success?
  {
    Success(())
  }

  /** A created user is what a later `get` finds; other entries read as before. */
  lemma CreateThenGet(data: UserMap, params: CreateUserParams, freshId: Uuid, now: Timestamp, other: Uuid)
    requires HashMapCreate(data, params, freshId, now).result.Success?
    ensures HashMapGet(HashMapCreate(data, params, freshId, now).after, freshId)
      == Success(User(freshId, params.name, params.authType, params.externalId, now, now))
    ensures other != freshId ==>
      HashMapGet(HashMapCreate(data, params, freshId, now).after, other) == HashMapGet(data, other)
  {
  }

  /** After a successful update, `get` returns the updated user; the external identity and the
      creation time never change. */
  lemma UpdateThenGet(data: UserMap, id: Uuid, params: UpdateUserParams, now: Timestamp)
    requires HashMapUpdate(data, id, params, now).result.Success?
    ensures HashMapGet(HashMapUpdate(data, id, params, now).after, id)
      == Success(HashMapUpdate(data, id, params, now).result.value)
    ensures var u := HashMapUpdate(data, id, params, now).result.value;
      u.id == data[id].id && u.authType == data[id].authType
      && u.externalId == data[id].externalId && u.createdAt == data[id].createdAt
  {
  }

  /** After `delete` the id is gone, so a second `delete` fails. */
  lemma DeleteThenGet(data: UserMap, id: Uuid)
    ensures HashMapGet(HashMapDelete(data, id).after, id) == Failure(GetNoSuchEntity(id))
    ensures HashMapDelete(HashMapDelete(data, id).after, id).result == Failure(DeleteNoSuchEntity(id))
  {
  }

  // ---------------------------------------------------------------- mocked implementation

  /** The external id the mocked `create` treats as already registered. */
  const ALREADY_EXISTING_ID: string := "AlreadyExistingID"

  /** The fixed user the mocked `get` and `update` build through `try_into`: "Sleeping Bag",
      GitHub, "awesome-github-id". The strings are concatenations so that the verifier reasons
      about their byte length through `MockParamsValid` rather than evaluating it everywhere. */
  const MOCK_PARAMS: CreateUserParams := CreateUserParams("Sleeping " + "Bag", Github, "awesome-" + "github-id")

  lemma MockParamsValid()
    ensures ValidText(MOCK_PARAMS.name) && ValidText(MOCK_PARAMS.externalId)
  {
    LengthBounds(MOCK_PARAMS.name);
    LengthBounds(MOCK_PARAMS.externalId);
  }

  /** `CreateUserParams::new("Sleeping Bag", Github, "awesome-github-id").try_into()`, which the
      mocked `get` and `update` start from: it always succeeds, with the fixed fields. */
  function FixedUser(freshId: Uuid, now: Timestamp): (r: Result<User, CreateUserValidationError>)
    ensures r == Success(User(freshId, MOCK_PARAMS.name, Github, MOCK_PARAMS.externalId, now, now))
  {
    MockParamsValid();
    UserFromParams(MOCK_PARAMS, freshId, now)
  }

  /** `UsersMockedDao::create`: the sentinel external id reports a collision with a fresh id;
      anything else is converted and stored nowhere. */
  function MockedCreate(params: CreateUserParams, collisionId: Uuid, freshId: Uuid, now: Timestamp): (r: Result<User, CreateUserError>)
    ensures r == Failure(AlreadyExists(collisionId)) <==> params.externalId == ALREADY_EXISTING_ID
    ensures r.Success? <==>
      params.externalId != ALREADY_EXISTING_ID && ValidText(params.name) && ValidText(params.externalId)
    ensures r.Success? ==> r.value == User(freshId, params.name, params.authType, params.externalId, now, now)
    ensures r.Failure? && params.externalId != ALREADY_EXISTING_ID ==> r.error == CreateInvalidParams
  {
    if params.externalId == ALREADY_EXISTING_ID then Failure(AlreadyExists(collisionId))
    else
      match UserFromParams(params, freshId, now)
      case Failure(e) => Failure(FromCreateValidation(e))
      case Success(u) => Success(u)
  }

  /** `UsersMockedDao::get`: the nil id is missing; any other id yields the fixed user, under a
      fresh id rather than the requested one. */
  function MockedGet(id: Uuid, freshId: Uuid, now: Timestamp): (r: Result<User, GetUserError>)
    ensures r.Failure? <==> id == NIL_UUID
    ensures r.Failure? ==> r.error == GetNoSuchEntity(id)
    ensures r.Success? ==> r.value == User(freshId, MOCK_PARAMS.name, Github, MOCK_PARAMS.externalId, now, now)
  {
    if id == NIL_UUID then Failure(GetNoSuchEntity(id))
    else
      match FixedUser(freshId, now)
      case Failure(_) => Failure(GetUnexpected)
      case Success(u) => Success(u)
  }

  /** `UsersMockedDao::update`: the fixed user, created at `built`, renamed at `now`. */
  function MockedUpdate(id: Uuid, params: UpdateUserParams, freshId: Uuid, built: Timestamp, now: Timestamp): (r: Result<User, UpdateUserError>)
    ensures r.Success? <==> id != NIL_UUID && ValidText(params.name)
    ensures id == NIL_UUID ==> r == Failure(UpdateNoSuchEntity(id))
    ensures id != NIL_UUID && !ValidText(params.name) ==> r == Failure(UpdateInvalidParams)
    ensures r.Success? ==>
      r.value == User(freshId, params.name, Github, MOCK_PARAMS.externalId, built, now)
  {
    if id == NIL_UUID then Failure(UpdateNoSuchEntity(id))
    else
      match FixedUser(freshId, built)
      case Failure(_) => Failure(UpdateUnexpected)
      case Success(u) =>
        var run := TryUpdate(u, params, now);
        match run.result
        case Failure(e) => Failure(FromUpdateValidation(e))
        case Success(_) => Success(run.user)
  }

  /** `UsersMockedDao::delete`: only the nil id is missing. */
  function MockedDelete(id: Uuid): (r: Result<(), DeleteUserError>)
    ensures r.Success? <==> id != NIL_UUID
    ensures r.Failure? ==> r.error == DeleteNoSuchEntity(id)
  {
    if id == NIL_UUID then Failure(DeleteNoSuchEntity(id)) else Success(())
  }
}
