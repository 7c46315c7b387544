/** Parameters for creating and updating an item, their builders, and the two conversions
    into an `Item` (dao/items/dtos/create.rs, update.rs). */
module ItemMutations {
  import opened Wrappers
  import opened Common
  import opened Validation
  import Items
  import opened Text

  /** `CreateItemParams` and `UpdateItemParams`: the same two fields, a name and a location. */
  datatype ItemParams = ItemParams(name: string, location: string)

  /** `CreateItemsParamsBuilder` and `UpdateItemParamsBuilder`: both fields optional until `build`. */
  datatype ParamsBuilder = ParamsBuilder(name: Option<string>, location: Option<string>)

  /** `CreateItemParamsBuilderError` and `UpdateItemParamsBuilderError`. */
  datatype ParamsBuilderError = NameNotSet | LocationNotSet

  /** `build` of the params builders: the name is checked before the location. */
  function BuildParams(b: ParamsBuilder): (r: Result<ItemParams, ParamsBuilderError>)
    ensures r.Success? <==> b.name.Some? && b.location.Some?
    ensures r.Success? ==> r.value.name == b.name.value && r.value.location == b.location.value
    ensures r == Failure(NameNotSet) <==> b.name.None?
    ensures r == Failure(LocationNotSet) <==> b.name.Some? && b.location.None?
  {
    if b.name.None? then Failure(NameNotSet)
    else if b.location.None? then Failure(LocationNotSet)
    else Success(ItemParams(b.name.value, b.location.value))
  }

  /** Setting both fields and building gives back exactly those fields. */
  lemma ParamsRoundTrip(p: ItemParams)
    ensures BuildParams(ParamsBuilder(Some(p.name), Some(p.location))) == Success(p)
  {
  }

  /** `TryInto<Item>` of the params: a fresh item whose creation and update times coincide. */
  function NewItem(p: ItemParams, freshId: Uuid, now: Timestamp): (r: Result<Items.Item, Items.ItemBuilderError>)
    ensures r.Success? <==> ValidText(p.name) && ValidText(p.location)
    ensures r.Success? ==>
      r.value == Items.Item(freshId, p.name, p.location, now, now) && Items.ValidItem(r.value)
    // a bad name is reported before a bad location; presence and time errors cannot occur
    ensures r.Failure? && !ValidText(p.name) ==>
      r.error == (if p.name == [] then Items.NameIsEmpty else Items.NameTooLong(p.name))
    ensures r.Failure? && ValidText(p.name) ==>
      r.error == (if p.location == [] then Items.LocationIsEmpty else Items.LocationTooLong(p.location))
  {
    Items.Build(Items.DefaultBuilder(freshId, now).(location := Some(p.location), name := Some(p.name)))
  }

  /** `Item::try_update`: rebuild with the item's id and creation time, the new fields, and `now`. */
  function TryUpdate(it: Items.Item, p: ItemParams, now: Timestamp): (r: Result<Items.Item, Items.ItemBuilderError>)
    ensures r.Success? <==> ValidText(p.name) && ValidText(p.location) && it.createdAt <= now
    ensures r.Success? ==>
      && r.value.id == it.id && r.value.createdAt == it.createdAt
      && r.value.name == p.name && r.value.location == p.location
      && r.value.updatedAt == now
      && Items.ValidItem(r.value)
    // field errors come first, in the order creation reports them
    ensures !ValidText(p.name) ==>
      r == Failure(if p.name == [] then Items.NameIsEmpty else Items.NameTooLong(p.name))
    ensures ValidText(p.name) && !ValidText(p.location) ==>
      r == Failure(if p.location == [] then Items.LocationIsEmpty else Items.LocationTooLong(p.location))
    ensures ValidText(p.name) && ValidText(p.location) && now < it.createdAt ==>
      r == Failure(Items.UpdatedBeforeCreation(now, it.createdAt))
  {
    Items.Build(Items.DefaultBuilder(it.id, now).(
      id := it.id, name := Some(p.name), location := Some(p.location),
      createdAt := it.createdAt, updatedAt := now))
  }

  /** Updating a valid item keeps it valid and moves its update time to `now`, never backwards
      from its creation time. */
  lemma TryUpdatePreservesValidity(it: Items.Item, p: ItemParams, now: Timestamp)
    requires Items.ValidItem(it)
    ensures TryUpdate(it, p, now).Success? ==> Items.ValidItem(TryUpdate(it, p, now).value)
    ensures TryUpdate(it, p, now).Success? ==>
      TryUpdate(it, p, now).value == it.(name := p.name, location := p.location, updatedAt := now)
  {
  }
}
