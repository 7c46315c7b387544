/** The legacy DAO generation (dao/entity.rs, params.rs, pagination.rs, impls/hash_map.rs,
    impls/mocked.rs, http/errors.rs). Its `Entity` has the fields of `Item`, its params are the
    item params, and it checks the same rules, but reports builder failures as `anyhow` messages.
    Each operation is written from its own source and shown to coincide with the current one. */
module Legacy {
  import opened Wrappers
  import opened Common
  import opened Validation
  import opened Items
  import opened ItemMutations
  import opened Listing
  import opened HttpCommon
  import Pagination
  import ItemsDao
  import HttpItems

  /** `Entity` has exactly the five fields of `Item`. */
  type Entity = Item

  const NAME_NOT_SET := "Name was not set in builder"
  const LOCATION_NOT_SET := "Location was not set in builder"
  const NAME_EMPTY := "Empty name is not allowed"
  const NAME_TOO_LONG := "Name is very long"
  const LOCATION_EMPTY := "Empty location is not allowed"
  const LOCATION_TOO_LONG := "Location is very long"
  const UPDATED_BEFORE_CREATION := "Last update time cannot be less than creation time"

  /** The `anyhow` message the legacy builder gives for each failed check. */
  function Message(e: ItemBuilderError): string {
    match e
    case NameNotSet => NAME_NOT_SET
    case LocationNotSet => LOCATION_NOT_SET
    case NameIsEmpty => NAME_EMPTY
    case NameTooLong(_) => NAME_TOO_LONG
    case LocationIsEmpty => LOCATION_EMPTY
    case LocationTooLong(_) => LOCATION_TOO_LONG
    case UpdatedBeforeCreation(_, _) => UPDATED_BEFORE_CREATION
  }

  /** The message tells which check failed: different checks never share a message. */
  lemma MessagesIdentifyCheck(a: ItemBuilderError, b: ItemBuilderError)
    ensures Message(a) == Message(b) <==>
      (a.NameNotSet? && b.NameNotSet?) || (a.LocationNotSet? && b.LocationNotSet?)
      || (a.NameIsEmpty? && b.NameIsEmpty?) || (a.NameTooLong? && b.NameTooLong?)
      || (a.LocationIsEmpty? && b.LocationIsEmpty?) || (a.LocationTooLong? && b.LocationTooLong?)
      || (a.UpdatedBeforeCreation? && b.UpdatedBeforeCreation?)
  {
  }

  /** `EntityBuilder::build`: the checks of `ItemBuilder::build`, in the same order, with the
      first failure reported as its message. */
  function BuildEntity(b: ItemBuilder): (r: Result<Entity, string>)
    ensures r.Success? <==>
      && b.name.Some? && ValidText(b.name.value)
      && b.location.Some? && ValidText(b.location.value)
      && b.createdAt <= b.updatedAt
    ensures r.Success? ==> r.value == Item(b.id, b.name.value, b.location.value, b.createdAt, b.updatedAt)
    ensures b.name.None? ==> r == Failure(NAME_NOT_SET)
    ensures b.name.Some? && b.location.None? ==> r == Failure(LOCATION_NOT_SET)
    ensures b.name.Some? && b.location.Some? && !ValidText(b.name.value) ==>
      r == Failure(if b.name.value == [] then NAME_EMPTY else NAME_TOO_LONG)
    ensures b.name.Some? && b.location.Some? && ValidText(b.name.value) && !ValidText(b.location.value) ==>
      r == Failure(if b.location.value == [] then LOCATION_EMPTY else LOCATION_TOO_LONG)
    ensures (b.name.Some? && b.location.Some? && ValidText(b.name.value) && ValidText(b.location.value)
      && b.updatedAt < b.createdAt) ==> r == Failure(UPDATED_BEFORE_CREATION)
    // the legacy builder fails exactly where the current one does, with that failure's message
    ensures r.Failure? <==> Build(b).Failure?
    ensures r.Failure? ==> r.error == Message(Build(b).error)
  {
    match Build(b)
    case Failure(e) => Failure(Message(e))
    case Success(entity) => Success(entity)
  }

  /** `Entity::try_mutate`: rebuild with the entity's id and creation time, the new fields, `now`. */
  function TryMutate(e: Entity, p: ItemParams, now: Timestamp): (r: Result<Entity, string>)
    ensures r.Success? <==> ValidText(p.name) && ValidText(p.location) && e.createdAt <= now
    ensures r.Success? ==> r.value == e.(name := p.name, location := p.location, updatedAt := now)
    ensures !ValidText(p.name) ==> r == Failure(if p.name == [] then NAME_EMPTY else NAME_TOO_LONG)
    ensures ValidText(p.name) && !ValidText(p.location) ==>
      r == Failure(if p.location == [] then LOCATION_EMPTY else LOCATION_TOO_LONG)
    ensures ValidText(p.name) && ValidText(p.location) && now < e.createdAt ==> r == Failure(UPDATED_BEFORE_CREATION)
    // it changes an entity exactly as `Item::try_update` changes an item
    ensures r.Success? <==> TryUpdate(e, p, now).Success?
    ensures r.Success? ==> r.value == TryUpdate(e, p, now).value
  {
    BuildEntity(ItemBuilder(e.id, Some(p.name), Some(p.location), e.createdAt, now))
  }

  /** `TryInto<Entity> for Params`: a fresh entity whose creation and update times coincide. */
  function NewEntity(p: ItemParams, freshId: Uuid, now: Timestamp): (r: Result<Entity, string>)
    ensures r.Success? <==> ValidText(p.name) && ValidText(p.location)
    ensures r.Success? ==> r.value == Item(freshId, p.name, p.location, now, now)
    ensures !ValidText(p.name) ==> r == Failure(if p.name == [] then NAME_EMPTY else NAME_TOO_LONG)
    ensures ValidText(p.name) && !ValidText(p.location) ==>
      r == Failure(if p.location == [] then LOCATION_EMPTY else LOCATION_TOO_LONG)
    ensures r.Success? <==> NewItem(p, freshId, now).Success?
  {
    BuildEntity(DefaultBuilder(freshId, now).(location := Some(p.location), name := Some(p.name)))
  }

  /** The legacy `PaginationBuilder::build`: zero page first, then zero limit, as messages. */
  function BuildPagination(b: Pagination.PaginationBuilder): (r: Result<Pagination.Pagination, string>)
    ensures r.Success? <==> b.page != 0 && b.limit != 0
    ensures r.Success? ==> r.value == Pagination.Pagination(b.page, b.limit) && Pagination.Positive(r.value)
    ensures b.page == 0 ==> r == Failure("Page number must be greater than zero")
    ensures b.page != 0 && b.limit == 0 ==> r == Failure("Entites limit must be greater than zero")
    // the same decision as the current builder, whose error displays as this message
    ensures r.Failure? <==> Pagination.Build(b).Failure?
    ensures r.Failure? ==> r.error == Pagination.Display(Pagination.Build(b).error)
  {
    if b.page == 0 then Failure("Page number must be greater than zero")
    else if b.limit == 0 then Failure("Entites limit must be greater than zero")
    else Success(Pagination.Pagination(b.page, b.limit))
  }

  // ---------------------------------------------------------------- HashMapDao

  /** `HashMapDao::list`: the same sorted window as the current DAO. */
  method List(data: ItemMap, p: Pagination.Pagination) returns (r: Result<seq<Entity>, ItemsDao.ListItemsError>)
    requires Pagination.Positive(p)
    ensures r.Success?
    ensures IsListing(r.value, data, Offset(p), p.limit)
    ensures |r.value| <= p.limit && SortedByUpdate(r.value)
  {
    var page := Listing.List(data, p);
    r := Success(page);
  }

  /** `HashMapDao::create`: identical in effect to the current create. */
  function Create(data: ItemMap, params: ItemParams, freshId: Uuid, now: Timestamp): (r: Run<Entity, ItemsDao.CreateItemError, ItemMap>)
    ensures r == ItemsDao.HashMapCreate(data, params, freshId, now)
    ensures r.result.Success? ==> r.after == data[freshId := Item(freshId, params.name, params.location, now, now)]
    ensures r.result.Failure? ==> r.after == data
  {
    match NewEntity(params, freshId, now)
    case Failure(_) => Run(Failure(ItemsDao.CreateInvalidParams), data)
    case Success(entity) =>
      if entity.id in data then Run(Failure(ItemsDao.AlreadyExists(entity.id)), data)
      else Run(Success(entity), data[entity.id := entity])
  }

  /** `HashMapDao::get`. */
  function Get(data: ItemMap, id: Uuid): (r: Result<Entity, ItemsDao.GetItemError>)
    ensures r == ItemsDao.HashMapGet(data, id)
    ensures r.Success? <==> id in data
  {
    if id in data then Success(data[id]) else Failure(ItemsDao.GetNoSuchEntity(id))
  }

  /** `HashMapDao::update`: identical in effect to the current update. */
  function Update(data: ItemMap, id: Uuid, params: ItemParams, now: Timestamp): (r: Run<Entity, ItemsDao.UpdateItemError, ItemMap>)
    ensures r == ItemsDao.HashMapUpdate(data, id, params, now)
    ensures r.result.Failure? ==> r.after == data
  {
    if id in data then
      match TryMutate(data[id], params, now)
      case Failure(_) => Run(Failure(ItemsDao.UpdateInvalidParams), data)
      case Success(updated) => Run(Success(updated), data[id := updated])
    else Run(Failure(ItemsDao.UpdateNoSuchEntity(id)), data)
  }

  /** `HashMapDao::delete`. */
  function Delete(data: ItemMap, id: Uuid): (r: Run<(), ItemsDao.DeleteItemError, ItemMap>)
    ensures r == ItemsDao.HashMapDelete(data, id)
    ensures r.after == data - {id}
  {
    if id in data then Run(Success(()), data - {id}) else Run(Failure(ItemsDao.DeleteNoSuchEntity(id)), data)
  }

  // ---------------------------------------------------------------- MockedDao

  /** `MockedDao::list`: the fixed entity, whatever the pagination. */
  function MockedList(p: Pagination.Pagination, freshId: Uuid, now: Timestamp): (r: Result<seq<Entity>, ItemsDao.ListItemsError>)
    ensures r == Success([Item(freshId, ItemsDao.MOCK_NAME, ItemsDao.MOCK_LOCATION, now, now)])
    ensures r == ItemsDao.MockedList(p, freshId, now)
  {
    ItemsDao.MockFieldsValid();
    match BuildEntity(ItemsDao.MockBuilder(freshId, now))
    case Failure(_) => Failure(ItemsDao.ListUnexpected)
    case Success(entity) => Success([entity])
  }

  /** `MockedDao::create`: converts the params and stores nothing. */
  function MockedCreate(params: ItemParams, freshId: Uuid, now: Timestamp): (r: Result<Entity, ItemsDao.CreateItemError>)
    ensures r.Success? <==> ValidText(params.name) && ValidText(params.location)
    ensures r == ItemsDao.MockedCreate(params, freshId, now)
  {
    match NewEntity(params, freshId, now)
    case Failure(_) => Failure(ItemsDao.CreateInvalidParams)
    case Success(entity) => Success(entity)
  }

  /** `MockedDao::get`: the fixed entity under the requested id. */
  function MockedGet(id: Uuid, freshId: Uuid, now: Timestamp): (r: Result<Entity, ItemsDao.GetItemError>)
    ensures r == Success(Item(id, ItemsDao.MOCK_NAME, ItemsDao.MOCK_LOCATION, now, now))
  {
    ItemsDao.MockBuildsFixedItem(freshId, id, now);
    match BuildEntity(ItemsDao.MockBuilder(freshId, now).(id := id))
    case Failure(_) => Failure(ItemsDao.GetUnexpected)
    case Success(entity) => Success(entity)
  }

  /** `MockedDao::update`: the fixed entity (built at `built`) mutated with the params at `now`. */
  function MockedUpdate(id: Uuid, params: ItemParams, freshId: Uuid, built: Timestamp, now: Timestamp): (r: Result<Entity, ItemsDao.UpdateItemError>)
    ensures r.Success? <==> ValidText(params.name) && ValidText(params.location) && built <= now
    ensures r.Success? ==> r.value == Item(id, params.name, params.location, built, now)
    ensures r.Failure? ==> r.error == ItemsDao.UpdateInvalidParams
  {
    ItemsDao.MockBuildsFixedItem(freshId, id, built);
    var fixed := BuildEntity(ItemsDao.MockBuilder(freshId, built).(id := id));
    if fixed.Failure? then Failure(ItemsDao.UpdateUnexpected)
    else
      var mutated := TryMutate(fixed.value, params, now);
      if mutated.Failure? then Failure(ItemsDao.UpdateInvalidParams) else Success(mutated.value)
  }

  /** The legacy and current mocked DAOs answer every update alike. */
  lemma MockedUpdateAgrees(id: Uuid, params: ItemParams, freshId: Uuid, built: Timestamp, now: Timestamp)
    ensures MockedUpdate(id, params, freshId, built, now) == ItemsDao.MockedUpdate(id, params, freshId, built, now)
  {
  }

  // ---------------------------------------------------------------- http/errors.rs

  /** `From<DaoCreateError> for AppError`: the status table (the display texts of the legacy
      DAO errors are not part of this model). */
  function CreateStatus(e: ItemsDao.CreateItemError): (s: StatusCode)
    ensures s == UNPROCESSABLE_ENTITY <==> e.CreateInvalidParams?
    ensures s == CONFLICT <==> e.AlreadyExists?
    ensures s == INTERNAL_SERVER_ERROR <==> e.CreateUnexpected?
    ensures s == HttpItems.FromCreateItemError(e).status
  {
    match e
    case CreateInvalidParams => UNPROCESSABLE_ENTITY
    case AlreadyExists(_) => CONFLICT
    case CreateUnexpected => INTERNAL_SERVER_ERROR
  }

  /** `From<DaoDeleteError>` and `From<DaoGetError> for AppError`. */
  function DeleteStatus(e: ItemsDao.DeleteItemError): (s: StatusCode)
    ensures s == NOT_FOUND <==> e.DeleteNoSuchEntity?
    ensures s == INTERNAL_SERVER_ERROR <==> e.DeleteUnexpected?
    ensures s == HttpItems.FromDeleteItemError(e).status
  {
    match e
    case DeleteNoSuchEntity(_) => NOT_FOUND
    case DeleteUnexpected => INTERNAL_SERVER_ERROR
  }

  function GetStatus(e: ItemsDao.GetItemError): (s: StatusCode)
    ensures s == NOT_FOUND <==> e.GetNoSuchEntity?
    ensures s == INTERNAL_SERVER_ERROR <==> e.GetUnexpected?
    ensures s == HttpItems.FromGetItemError(e).status
  {
    match e
    case GetNoSuchEntity(_) => NOT_FOUND
    case GetUnexpected => INTERNAL_SERVER_ERROR
  }

  /** `From<DaoHealthError>` and `From<DaoListError> for AppError`: always 500. */
  function HealthStatus(e: ItemsDao.ItemsHealthError): (s: StatusCode)
    ensures s == INTERNAL_SERVER_ERROR
  {
    match e case HealthUnexpected => INTERNAL_SERVER_ERROR
  }

  function ListStatus(e: ItemsDao.ListItemsError): (s: StatusCode)
    ensures s == INTERNAL_SERVER_ERROR
  {
    match e case ListUnexpected => INTERNAL_SERVER_ERROR
  }

  /** `From<DaoUpdateError> for AppError`. */
  function UpdateStatus(e: ItemsDao.UpdateItemError): (s: StatusCode)
    ensures s == UNPROCESSABLE_ENTITY <==> e.UpdateInvalidParams?
    ensures s == NOT_FOUND <==> e.UpdateNoSuchEntity?
    ensures s == INTERNAL_SERVER_ERROR <==> e.UpdateUnexpected?
    ensures s == HttpItems.FromUpdateItemError(e).status
  {
    match e
    case UpdateInvalidParams => UNPROCESSABLE_ENTITY
    case UpdateNoSuchEntity(_) => NOT_FOUND
    case UpdateUnexpected => INTERNAL_SERVER_ERROR
  }
}
