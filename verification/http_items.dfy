/** The HTTP view of items: DAO errors mapped to responses (http/items/errors.rs) and the
    transfer objects (http/items/dtos.rs). */
module HttpItems {
  import opened Wrappers
  import opened Common
  import opened HttpCommon
  import Items
  import ItemMutations
  import ItemsDao

  /** `From<CreateItemError> for AppError`. */
  function FromCreateItemError(e: ItemsDao.CreateItemError): (r: AppError)
    ensures r.status == UNPROCESSABLE_ENTITY <==> e.CreateInvalidParams?
    ensures r.status == CONFLICT <==> e.AlreadyExists?
    ensures r.status == INTERNAL_SERVER_ERROR <==> e.CreateUnexpected?
    ensures r.details == ItemsDao.CreateErrorText(e)
  {
    var status := match e
      case CreateInvalidParams => UNPROCESSABLE_ENTITY
      case AlreadyExists(_) => CONFLICT
      case CreateUnexpected => INTERNAL_SERVER_ERROR;
    AppError(status, ItemsDao.CreateErrorText(e))
  }

  /** `From<DeleteItemError> for AppError`. */
  function FromDeleteItemError(e: ItemsDao.DeleteItemError): (r: AppError)
    ensures r.status == NOT_FOUND <==> e.DeleteNoSuchEntity?
    ensures r.status == INTERNAL_SERVER_ERROR <==> e.DeleteUnexpected?
    ensures r.details == ItemsDao.DeleteErrorText(e)
  {
    var status := match e
      case DeleteNoSuchEntity(_) => NOT_FOUND
      case DeleteUnexpected => INTERNAL_SERVER_ERROR;
    AppError(status, ItemsDao.DeleteErrorText(e))
  }

  /** `From<GetItemError> for AppError`. */
  function FromGetItemError(e: ItemsDao.GetItemError): (r: AppError)
    ensures r.status == NOT_FOUND <==> e.GetNoSuchEntity?
    ensures r.status == INTERNAL_SERVER_ERROR <==> e.GetUnexpected?
    ensures r.details == ItemsDao.GetErrorText(e)
  {
    var status := match e
      case GetNoSuchEntity(_) => NOT_FOUND
      case GetUnexpected => INTERNAL_SERVER_ERROR;
    AppError(status, ItemsDao.GetErrorText(e))
  }

  /** `From<ItemsHealthError> for AppError`. */
  function FromItemsHealthError(e: ItemsDao.ItemsHealthError): (r: AppError)
    ensures r == AppError(INTERNAL_SERVER_ERROR, "Something went wrong")
  {
    match e
    case HealthUnexpected => AppError(INTERNAL_SERVER_ERROR, ItemsDao.SOMETHING_WENT_WRONG)
  }

  /** `From<ListItemsError> for AppError`. */
  function FromListItemsError(e: ItemsDao.ListItemsError): (r: AppError)
    ensures r == AppError(INTERNAL_SERVER_ERROR, "Something went wrong")
  {
    match e
    case ListUnexpected => AppError(INTERNAL_SERVER_ERROR, ItemsDao.SOMETHING_WENT_WRONG)
  }

  /** `From<UpdateItemError> for AppError`. */
  function FromUpdateItemError(e: ItemsDao.UpdateItemError): (r: AppError)
    ensures r.status == UNPROCESSABLE_ENTITY <==> e.UpdateInvalidParams?
    ensures r.status == NOT_FOUND <==> e.UpdateNoSuchEntity?
    ensures r.status == INTERNAL_SERVER_ERROR <==> e.UpdateUnexpected?
    ensures r.details == ItemsDao.UpdateErrorText(e)
  {
    var status := match e
      case UpdateInvalidParams => UNPROCESSABLE_ENTITY
      case UpdateNoSuchEntity(_) => NOT_FOUND
      case UpdateUnexpected => INTERNAL_SERVER_ERROR;
    AppError(status, ItemsDao.UpdateErrorText(e))
  }

  /** Display texts of the create/update params builder errors. */
  function ParamsBuilderErrorText(e: ItemMutations.ParamsBuilderError): string {
    match e
    case NameNotSet => "Name is not set"
    case LocationNotSet => "Location is not set"
  }

  /** `From<CreateItemParamsBuilderError>` and `From<UpdateItemParamsBuilderError> for AppError`:
      both variants are 422 with their display text. */
  function FromParamsBuilderError(e: ItemMutations.ParamsBuilderError): (r: AppError)
    ensures r.status == UNPROCESSABLE_ENTITY
    ensures r.details == ParamsBuilderErrorText(e)
  {
    AppError(UNPROCESSABLE_ENTITY, ParamsBuilderErrorText(e))
  }

  /** A missing entity is reported as 404 by get, update and delete alike, and the body names
      the same id in the same words. */
  lemma NoSuchEntityUniform(id: Uuid)
    ensures FromGetItemError(ItemsDao.GetNoSuchEntity(id))
         == FromUpdateItemError(ItemsDao.UpdateNoSuchEntity(id))
         == FromDeleteItemError(ItemsDao.DeleteNoSuchEntity(id))
         == AppError(NOT_FOUND, ItemsDao.NoSuchEntityText(id))
  {
  }

  // ---------------------------------------------------------------- transfer objects

  datatype HttpItem = HttpItem(id: Uuid, name: string, location: string, createdAt: Timestamp, updatedAt: Timestamp)

  /** `From<Item> for HttpItem`: a field-by-field copy. */
  function FromItem(it: Items.Item): (r: HttpItem)
    ensures r.id == it.id && r.name == it.name && r.location == it.location
    ensures r.createdAt == it.createdAt && r.updatedAt == it.updatedAt
  {
    HttpItem(it.id, it.name, it.location, it.createdAt, it.updatedAt)
  }

  /** The HTTP view loses nothing: distinct items are shown differently. */
  lemma FromItemInjective(a: Items.Item, b: Items.Item)
    requires FromItem(a) == FromItem(b)
    ensures a == b
  {
  }

  datatype HttpItemParams = HttpItemParams(name: string, location: string)

  /** `TryInto<CreateItemParams>` / `TryInto<UpdateItemParams>` of the request body: both fields
      are always present, so the builder never reports a missing one. */
  function ToItemParams(p: HttpItemParams): (r: Result<ItemMutations.ItemParams, ItemMutations.ParamsBuilderError>)
    ensures r.Success?
    ensures r.value.name == p.name && r.value.location == p.location
  {
    ItemMutations.BuildParams(ItemMutations.ParamsBuilder(Some(p.name), Some(p.location)))
  }
}
