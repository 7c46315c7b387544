/** Items: the `Item` entity, its validating builder, and the parameter records used to
    create and update one (dao/items/dtos/item.rs, create.rs, update.rs). */
module Items {
  import opened Wrappers
  import opened Text
  import opened Common
  import opened Validation

  datatype Item = Item(id: Uuid, name: string, location: string, createdAt: Timestamp, updatedAt: Timestamp)

  /** What every item produced by `build` satisfies. */
  predicate ValidItem(it: Item) {
    ValidText(it.name) && ValidText(it.location) && it.createdAt <= it.updatedAt
  }

  datatype ItemBuilder = ItemBuilder(
    id: Uuid,
    name: Option<string>,
    location: Option<string>,
    createdAt: Timestamp,
    updatedAt: Timestamp)

  datatype ItemBuilderError =
    | NameNotSet
    | NameIsEmpty
    | NameTooLong(name: string)
    | LocationNotSet
    | LocationIsEmpty
    | LocationTooLong(location: string)
    | UpdatedBeforeCreation(updatedAt: Timestamp, createdAt: Timestamp)

  /** `ItemBuilder::default()`, given the fresh UUID and the clock reading it would take. */
  function DefaultBuilder(freshId: Uuid, now: Timestamp): (b: ItemBuilder)
    ensures b.name.None? && b.location.None?
    ensures b.id == freshId && b.createdAt == now && b.updatedAt == now
  {
    ItemBuilder(freshId, None, None, now, now)
  }

  /** `ItemBuilder::build`: the checks run in a fixed order and the first failure is reported. */
  function Build(b: ItemBuilder): (r: Result<Item, ItemBuilderError>)
    // success exactly on valid input, and then every field comes from the builder
    ensures r.Success? <==>
      && b.name.Some? && ValidText(b.name.value)
      && b.location.Some? && ValidText(b.location.value)
      && b.createdAt <= b.updatedAt
    ensures r.Success? ==>
      && r.value == Item(b.id, b.name.value, b.location.value, b.createdAt, b.updatedAt)
      && ValidItem(r.value)
    // the first failing check wins: name presence, location presence, name, location, times
    ensures r == Failure(NameNotSet) <==> b.name.None?
    ensures r == Failure(LocationNotSet) <==> b.name.Some? && b.location.None?
    ensures r == Failure(NameIsEmpty) <==> b.name == Some("") && b.location.Some?
    ensures (r.Failure? && r.error.NameTooLong?) <==>
      b.name.Some? && b.location.Some? && b.name.value != "" && TooLong(b.name.value)
    ensures r.Failure? && r.error.NameTooLong? ==> r.error.name == b.name.value
    ensures r == Failure(LocationIsEmpty) <==>
      b.name.Some? && ValidText(b.name.value) && b.location == Some("")
    ensures (r.Failure? && r.error.LocationTooLong?) <==>
      && b.name.Some? && ValidText(b.name.value)
      && b.location.Some? && b.location.value != "" && TooLong(b.location.value)
    ensures r.Failure? && r.error.LocationTooLong? ==> r.error.location == b.location.value
    ensures (r.Failure? && r.error.UpdatedBeforeCreation?) <==>
      && b.name.Some? && ValidText(b.name.value)
      && b.location.Some? && ValidText(b.location.value)
      && b.updatedAt < b.createdAt
    ensures r.Failure? && r.error.UpdatedBeforeCreation? ==>
      r.error == UpdatedBeforeCreation(b.updatedAt, b.createdAt)
  {
    if b.name.None? then Failure(NameNotSet)
    else if b.location.None? then Failure(LocationNotSet)
    else
      var name := b.name.value;
      var location := b.location.value;
      if name == [] then Failure(NameIsEmpty)
      else if Utf8Len(name) > MAX_LENGTH then Failure(NameTooLong(name))
      else if location == [] then Failure(LocationIsEmpty)
      else if Utf8Len(location) > MAX_LENGTH then Failure(LocationTooLong(location))
      else if b.updatedAt < b.createdAt then Failure(UpdatedBeforeCreation(b.updatedAt, b.createdAt))
      else Success(Item(b.id, name, location, b.createdAt, b.updatedAt))
  }

  /** The builder chain `id(..).name(..).location(..).created_at(..).update_at(..)` for an existing item. */
  function BuilderFor(it: Item): ItemBuilder {
    ItemBuilder(it.id, Some(it.name), Some(it.location), it.createdAt, it.updatedAt)
  }

  /** Building accepts exactly the valid items, and gives back the item it was fed. */
  lemma BuildRoundTrip(it: Item)
    ensures Build(BuilderFor(it)).Success? <==> ValidItem(it)
    ensures ValidItem(it) ==> Build(BuilderFor(it)) == Success(it)
  {
  }

  /** A name or location of exactly 128 bytes is accepted; one byte more is rejected. */
  lemma BoundaryLength(b: ItemBuilder)
    requires b.name.Some? && b.location.Some? && b.createdAt <= b.updatedAt
    requires Utf8Len(b.name.value) == MAX_LENGTH && Utf8Len(b.location.value) == MAX_LENGTH
    ensures Build(b).Success?
    ensures Build(b.(name := Some(b.name.value + "x"))) == Failure(NameTooLong(b.name.value + "x"))
  {
    Utf8LenAppend(b.name.value, "x");
  }
}
