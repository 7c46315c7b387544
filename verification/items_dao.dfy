/** The items DAO: its error types (dao/items/errors.rs), the in-memory implementation over a
    hash map (dao/items/impls/hash_map.rs) and the mocked implementation (dao/items/impls/mocked.rs).
    The `RwLock` around the map is not modelled: each call is a function from the map before the
    call to its result and the map after it. */
module ItemsDao {
  import opened Wrappers
  import opened Text
  import opened Common
  import opened Validation
  import opened Items
  import opened ItemMutations
  import Pagination
  import opened Listing

  datatype ListItemsError = ListUnexpected
  datatype CreateItemError = CreateInvalidParams | AlreadyExists(id: Uuid) | CreateUnexpected
  datatype GetItemError = GetNoSuchEntity(id: Uuid) | GetUnexpected
  datatype UpdateItemError = UpdateInvalidParams | UpdateNoSuchEntity(id: Uuid) | UpdateUnexpected
  datatype DeleteItemError = DeleteNoSuchEntity(id: Uuid) | DeleteUnexpected
  datatype ItemsHealthError = HealthUnexpected

  const SOMETHING_WENT_WRONG := "Something went wrong"

  /** Display texts (`#[error(...)]`). */
  function CreateErrorText(e: CreateItemError): string {
    match e
    case CreateInvalidParams => "Cannot create entity from given params"
    case AlreadyExists(id) => "Entity with id '" + UuidDebug(id) + "' already exists in our records"
    case CreateUnexpected => SOMETHING_WENT_WRONG
  }

  function NoSuchEntityText(id: Uuid): string {
    "Entity with id '" + UuidDebug(id) + "' doesn't exist in our records"
  }

  function GetErrorText(e: GetItemError): string {
    match e
    case GetNoSuchEntity(id) => NoSuchEntityText(id)
    case GetUnexpected => SOMETHING_WENT_WRONG
  }

  function UpdateErrorText(e: UpdateItemError): string {
    match e
    case UpdateInvalidParams => "Cannot update entity with given params"
    case UpdateNoSuchEntity(id) => NoSuchEntityText(id)
    case UpdateUnexpected => SOMETHING_WENT_WRONG
  }

  function DeleteErrorText(e: DeleteItemError): string {
    match e
    case DeleteNoSuchEntity(id) => NoSuchEntityText(id)
    case DeleteUnexpected => SOMETHING_WENT_WRONG
  }

  // ---------------------------------------------------------------- hash-map implementation

  /** `ItemsHashMapDao::list`: never fails; a sorted window of the stored items. */
  method HashMapList(data: ItemMap, p: Pagination.Pagination) returns (r: Result<seq<Item>, ListItemsError>)
    requires Pagination.Positive(p)
    ensures r.Success?
    ensures IsListing(r.value, data, Offset(p), p.limit)
    ensures |r.value| <= p.limit && SortedByUpdate(r.value)
  {
    var page := List(data, p);
    r := Success(page);
  }

  /** `ItemsHashMapDao::create`: build a fresh item from the params and insert it unless its id is
      taken (which takes a UUID collision). */
  function HashMapCreate(data: ItemMap, params: ItemParams, freshId: Uuid, now: Timestamp): (r: Run<Item, CreateItemError, ItemMap>)
    ensures r.result.Success? <==> ValidText(params.name) && ValidText(params.location) && freshId !in data
    ensures r.result.Success? ==>
      && r.result.value == Item(freshId, params.name, params.location, now, now)
      && r.after == data[freshId := r.result.value]
    ensures r.result.Failure? ==> r.after == data
    ensures r.result == Failure(CreateInvalidParams) <==> !(ValidText(params.name) && ValidText(params.location))
    ensures r.result == Failure(AlreadyExists(freshId)) <==>
      ValidText(params.name) && ValidText(params.location) && freshId in data
    ensures Keyed(data) ==> Keyed(r.after)
  {
    match NewItem(params, freshId, now)
    case Failure(_) => Run(Failure(CreateInvalidParams), data)
    case Success(entity) =>
      if entity.id in data then Run(Failure(AlreadyExists(entity.id)), data)
      else Run(Success(entity), data[entity.id := entity])
  }

  /** `ItemsHashMapDao::get`. */
  function HashMapGet(data: ItemMap, id: Uuid): (r: Result<Item, GetItemError>)
    ensures r.Success? <==> id in data
    ensures r.Success? ==> r.value == data[id]
    ensures r.Failure? ==> r.error == GetNoSuchEntity(id)
  {
    if id in data then Success(data[id]) else Failure(GetNoSuchEntity(id))
  }

  /** `ItemsHashMapDao::update`: rebuild the stored item with the new fields and time. */
  function HashMapUpdate(data: ItemMap, id: Uuid, params: ItemParams, now: Timestamp): (r: Run<Item, UpdateItemError, ItemMap>)
    ensures r.result.Success? <==>
      id in data && ValidText(params.name) && ValidText(params.location) && data[id].createdAt <= now
    ensures r.result.Success? ==>
      && r.result.value == data[id].(name := params.name, location := params.location, updatedAt := now)
      && r.after == data[id := r.result.value]
    ensures r.result.Failure? ==> r.after == data
    ensures r.result == Failure(UpdateNoSuchEntity(id)) <==> id !in data
    ensures r.result == Failure(UpdateInvalidParams) <==> id in data && r.result.Failure?
    ensures Keyed(data) ==> Keyed(r.after)
  {
    if id in data then
      match TryUpdate(data[id], params, now)
      case Failure(_) => Run(Failure(UpdateInvalidParams), data)
      case Success(updated) => Run(Success(updated), data[id := updated])
    else Run(Failure(UpdateNoSuchEntity(id)), data)
  }

  /** `ItemsHashMapDao::delete`. */
  function HashMapDelete(data: ItemMap, id: Uuid): (r: Run<(), DeleteItemError, ItemMap>)
    ensures r.result.Success? <==> id in data
    ensures r.after == data - {id}
    ensures r.result.Failure? ==> r.result.error == DeleteNoSuchEntity(id)
    ensures Keyed(data) ==> Keyed(r.after)
  {
    if id in data then Run(Success(()), data - {id}) else Run(Failure(DeleteNoSuchEntity(id)), data)
  }

  /** `health` of both implementations: always healthy. */
  function Health(): (r: Result<(), ItemsHealthError>)
    ensures r.Success?
  {
    Success(())
  }

  /** A created item is what a later `get` finds, and every other entry reads as before. */
  lemma CreateThenGet(data: ItemMap, params: ItemParams, freshId: Uuid, now: Timestamp, other: Uuid)
    requires HashMapCreate(data, params, freshId, now).result.Success?
    ensures HashMapGet(HashMapCreate(data, params, freshId, now).after, freshId)
      == Success(Item(freshId, params.name, params.location, now, now))
    ensures other != freshId ==>
      HashMapGet(HashMapCreate(data, params, freshId, now).after, other) == HashMapGet(data, other)
  {
  }

  /** `get` after a successful `update` returns the updated item; other entries are untouched. */
  lemma UpdateThenGet(data: ItemMap, id: Uuid, params: ItemParams, now: Timestamp, other: Uuid)
    requires HashMapUpdate(data, id, params, now).result.Success?
    ensures HashMapGet(HashMapUpdate(data, id, params, now).after, id)
      == Success(HashMapUpdate(data, id, params, now).result.value)
    ensures other != id ==>
      HashMapGet(HashMapUpdate(data, id, params, now).after, other) == HashMapGet(data, other)
  {
  }

  /** After `delete` the id is gone, so deleting it again fails; other entries are untouched. */
  lemma DeleteThenGet(data: ItemMap, id: Uuid, other: Uuid)
    ensures HashMapGet(HashMapDelete(data, id).after, id) == Failure(GetNoSuchEntity(id))
    ensures HashMapDelete(HashMapDelete(data, id).after, id).result == Failure(DeleteNoSuchEntity(id))
    ensures other != id ==> HashMapGet(HashMapDelete(data, id).after, other) == HashMapGet(data, other)
  {
  }

  /** Stored items stay valid: every successful write stores a valid item. */
  lemma WritesPreserveValidity(data: ItemMap, params: ItemParams, id: Uuid, freshId: Uuid, now: Timestamp)
    requires forall k :: k in data ==> ValidItem(data[k])
    ensures var after := HashMapCreate(data, params, freshId, now).after;
      forall k :: k in after ==> ValidItem(after[k])
    ensures var after := HashMapUpdate(data, id, params, now).after;
      forall k :: k in after ==> ValidItem(after[k])
    ensures var after := HashMapDelete(data, id).after;
      forall k :: k in after ==> ValidItem(after[k])
  {
  }

  // ---------------------------------------------------------------- mocked implementation

  // The fixed strings are written as concatenations: the verifier then reasons about their byte
  // length through `MockFieldsValid` instead of evaluating it character by character everywhere.
  const MOCK_NAME: string := "Sleeping " + "Bag"
  const MOCK_LOCATION: string := "Calgary, " + "AB"

  /** The fixed fields pass validation (each is at most 32 characters, so at most 128 bytes). */
  lemma MockFieldsValid()
    ensures ValidText(MOCK_NAME) && ValidText(MOCK_LOCATION)
  {
    LengthBounds(MOCK_NAME);
    LengthBounds(MOCK_LOCATION);
  }

  /** The fixed item every mocked call builds, before `.id(..)` possibly replaces its id. */
  function MockBuilder(freshId: Uuid, now: Timestamp): ItemBuilder {
    DefaultBuilder(freshId, now).(name := Some(MOCK_NAME), location := Some(MOCK_LOCATION))
  }

  /** Building the fixed item succeeds, whatever id it is given. */
  lemma MockBuildsFixedItem(freshId: Uuid, id: Uuid, now: Timestamp)
    ensures Build(MockBuilder(freshId, now).(id := id)) == Success(Item(id, MOCK_NAME, MOCK_LOCATION, now, now))
  {
    MockFieldsValid();
  }

  /** `ItemsMockedDao::list`: ignores the pagination and returns the fixed item; its
      `UnexpectedError` branch cannot be taken because the fixed fields are valid. */
  function MockedList(p: Pagination.Pagination, freshId: Uuid, now: Timestamp): (r: Result<seq<Item>, ListItemsError>)
    ensures r == Success([Item(freshId, MOCK_NAME, MOCK_LOCATION, now, now)])
  {
    MockFieldsValid();
    match Build(MockBuilder(freshId, now))
    case Failure(_) => Failure(ListUnexpected)
    case Success(entity) => Success([entity])
  }

  /** `ItemsMockedDao::create`: converts the params and stores nothing. */
  function MockedCreate(params: ItemParams, freshId: Uuid, now: Timestamp): (r: Result<Item, CreateItemError>)
    ensures r.Success? <==> ValidText(params.name) && ValidText(params.location)
    ensures r.Success? ==> r.value == Item(freshId, params.name, params.location, now, now)
    ensures r.Failure? ==> r.error == CreateInvalidParams
  {
    match NewItem(params, freshId, now)
    case Failure(_) => Failure(CreateInvalidParams)
    case Success(entity) => Success(entity)
  }

  /** `ItemsMockedDao::get`: the fixed item under the requested id; never fails. */
  function MockedGet(id: Uuid, freshId: Uuid, now: Timestamp): (r: Result<Item, GetItemError>)
    ensures r == Success(Item(id, MOCK_NAME, MOCK_LOCATION, now, now))
  {
    MockFieldsValid();
    match Build(MockBuilder(freshId, now).(id := id))
    case Failure(_) => Failure(GetUnexpected)
    case Success(entity) => Success(entity)
  }

  /** `ItemsMockedDao::update`: the fixed item (built at `built`) updated with the params at
      `now`; fails only on invalid params or a clock that went backwards between the two readings. */
  function MockedUpdate(id: Uuid, params: ItemParams, freshId: Uuid, built: Timestamp, now: Timestamp): (r: Result<Item, UpdateItemError>)
    ensures r.Success? <==> ValidText(params.name) && ValidText(params.location) && built <= now
    ensures r.Success? ==> r.value == Item(id, params.name, params.location, built, now)
    ensures r.Failure? ==> r.error == UpdateInvalidParams
  {
    MockBuildsFixedItem(freshId, id, built);
    var fixed := Build(MockBuilder(freshId, built).(id := id));
    if fixed.Failure? then Failure(UpdateUnexpected)
    else
      var updated := TryUpdate(fixed.value, params, now);
      if updated.Failure? then Failure(UpdateInvalidParams) else Success(updated.value)
  }

  /** `ItemsMockedDao::delete`: always succeeds. */
  function MockedDelete(id: Uuid): (r: Result<(), DeleteItemError>)
    ensures r.Success?
  {
    Success(())
  }
}
