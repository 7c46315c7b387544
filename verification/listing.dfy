/** The `list` operation of the hash-map DAOs: take the map's values in iteration order, sort
    them by update time, skip `(page - 1) * limit` of them and take `limit`. A `HashMap`'s
    iteration order is unspecified, so the result is specified as a window of SOME ordering of
    the values that is sorted by update time; items with equal update times may come in any order. */
module Listing {
  import opened Common
  import opened Items
  import opened Pagination

  type ItemMap = map<Uuid, Item>

  /** The map keeps every item under its own id (the DAOs insert at `entity.id()`). */
  predicate Keyed(data: ItemMap) {
    forall k :: k in data ==> data[k].id == k
  }

  predicate Distinct(ks: seq<Uuid>) {
    forall i, j :: 0 <= i < j < |ks| ==> ks[i] != ks[j]
  }

  predicate AllIn(ks: seq<Uuid>, data: ItemMap) {
    forall i :: 0 <= i < |ks| ==> ks[i] in data
  }

  /** `ks` lists every key of `data` exactly once: one possible iteration order. */
  predicate Enumerates(ks: seq<Uuid>, data: ItemMap) {
    Distinct(ks) && AllIn(ks, data) && forall k :: k in data ==> k in ks
  }

  /** The keys are in ascending order of their items' update times. */
  predicate SortedKeys(ks: seq<Uuid>, data: ItemMap)
    requires AllIn(ks, data)
  {
    forall i, j :: 0 <= i < j < |ks| ==> data[ks[i]].updatedAt <= data[ks[j]].updatedAt
  }

  predicate SortedByUpdate(s: seq<Item>) {
    forall i, j :: 0 <= i < j < |s| ==> s[i].updatedAt <= s[j].updatedAt
  }

  /** The items stored under `ks`, in that order. */
  function ValuesAt(ks: seq<Uuid>, data: ItemMap): (s: seq<Item>)
    requires AllIn(ks, data)
    ensures |s| == |ks|
    ensures forall i :: 0 <= i < |ks| ==> s[i] == data[ks[i]]
  {
    seq(|ks|, i requires 0 <= i < |ks| => data[ks[i]])
  }

  /** Insert `k` before the first key whose item is not updated earlier. */
  function InsertByUpdate(k: Uuid, ks: seq<Uuid>, data: ItemMap): (r: seq<Uuid>)
    requires k in data && AllIn(ks, data)
    ensures |r| == |ks| + 1 && AllIn(r, data)
    ensures forall x :: x in r <==> x == k || x in ks
    ensures SortedKeys(ks, data) ==> SortedKeys(r, data)
    ensures k !in ks && Distinct(ks) ==> Distinct(r)
  {
    if ks == [] then [k]
    else if data[k].updatedAt <= data[ks[0]].updatedAt then [k] + ks
    else
      var rest := InsertByUpdate(k, ks[1..], data);
      assert forall x :: x in ks <==> x == ks[0] || x in ks[1..] by {
        assert ks == [ks[0]] + ks[1..];
      }
      InsertHeadBound(k, ks, rest, data);
      [ks[0]] + rest
  }

  /** Every key of `rest` (which holds `k` and the tail of `ks`) comes no earlier than the head of
      `ks` when `ks` is sorted, and differs from it when `ks` is distinct and misses `k`. */
  lemma InsertHeadBound(k: Uuid, ks: seq<Uuid>, rest: seq<Uuid>, data: ItemMap)
    requires k in data && AllIn(ks, data) && AllIn(rest, data) && ks != []
    requires data[ks[0]].updatedAt < data[k].updatedAt
    requires forall x :: x in rest <==> x == k || x in ks[1..]
    ensures SortedKeys(ks, data) ==> forall m :: 0 <= m < |rest| ==> data[ks[0]].updatedAt <= data[rest[m]].updatedAt
    ensures k !in ks && Distinct(ks) ==> ks[0] !in rest
  {
    if SortedKeys(ks, data) {
      forall m | 0 <= m < |rest|
        ensures data[ks[0]].updatedAt <= data[rest[m]].updatedAt
      {
        assert rest[m] in rest;
        if rest[m] != k {
          var j :| 0 <= j < |ks[1..]| && ks[1..][j] == rest[m];
          assert ks[j + 1] == rest[m];
        }
      }
    }
  }

  /** Insertion sort of the keys by their items' update times (`sort_by_key(updated_at)`). */
  function SortByUpdate(ks: seq<Uuid>, data: ItemMap): (r: seq<Uuid>)
    requires AllIn(ks, data)
    ensures |r| == |ks| && AllIn(r, data)
    ensures forall x :: x in r <==> x in ks
    ensures SortedKeys(r, data)
    ensures Distinct(ks) ==> Distinct(r)
  {
    if ks == [] then []
    else
      assert forall x :: x in ks <==> x == ks[0] || x in ks[1..] by {
        assert ks == [ks[0]] + ks[1..];
      }
      InsertByUpdate(ks[0], SortByUpdate(ks[1..], data), data)
  }

  /** `skip(offset).take(limit)`. */
  function Window<T>(s: seq<T>, offset: nat, limit: nat): (r: seq<T>)
    ensures |r| == if offset >= |s| then 0 else if limit <= |s| - offset then limit else |s| - offset
    ensures forall i :: 0 <= i < |r| ==> r[i] == s[offset + i]
  {
    if offset >= |s| then []
    else if limit <= |s| - offset then s[offset..offset + limit]
    else s[offset..]
  }

  /** Entries skipped before the requested page. */
  function Offset(p: Pagination): nat
    requires Positive(p)
  {
    (p.page - 1) * p.limit
  }

  /** What `list` returns when the map is iterated in the order `ks`. */
  function ListFrom(ks: seq<Uuid>, data: ItemMap, offset: nat, limit: nat): (r: seq<Item>)
    requires AllIn(ks, data)
    ensures |r| <= limit
    ensures forall i :: 0 <= i < |r| ==> r[i] in data.Values
    ensures Distinct(ks) ==> SortedByUpdate(r)
  {
    var sorted := SortByUpdate(ks, data);
    var r := Window(ValuesAt(sorted, data), offset, limit);
    assert forall i :: 0 <= i < |r| ==> r[i] == data[sorted[offset + i]];
    r
  }

  /** One iteration order of the map: every key, each once. */
  method EnumerateKeys(data: ItemMap) returns (ks: seq<Uuid>)
    ensures Enumerates(ks, data)
  {
    ks := [];
    var rest := data.Keys;
    while rest != {}
      invariant rest <= data.Keys
      invariant AllIn(ks, data) && Distinct(ks)
      invariant forall i :: 0 <= i < |ks| ==> ks[i] !in rest
      invariant forall k :: k in data ==> k in ks || k in rest
      decreases rest
    {
      var k :| k in rest;
      ks := ks + [k];
      rest := rest - {k};
    }
  }

  /** The specification of `list`: the page is a window of some iteration order of the map's
      values, sorted by update time. */
  ghost predicate IsListing(r: seq<Item>, data: ItemMap, offset: nat, limit: nat) {
    exists ks :: Enumerates(ks, data) && SortedKeys(ks, data) && r == Window(ValuesAt(ks, data), offset, limit)
  }

  lemma ListFromIsListing(ks: seq<Uuid>, data: ItemMap, offset: nat, limit: nat)
    requires Enumerates(ks, data)
    ensures IsListing(ListFrom(ks, data, offset, limit), data, offset, limit)
  {
    var sorted := SortByUpdate(ks, data);
    assert Enumerates(sorted, data);
  }

  /** `list` of the hash-map DAOs, with the page offset computed exactly. */
  method List(data: ItemMap, p: Pagination) returns (r: seq<Item>)
    requires Positive(p)
    ensures IsListing(r, data, Offset(p), p.limit)
    ensures |r| <= p.limit && SortedByUpdate(r)
    ensures forall i :: 0 <= i < |r| ==> r[i] in data.Values
    ensures data == map[] ==> r == []
  {
    var ks := EnumerateKeys(data);
    var offset := (p.page - 1) * p.limit;
    assert offset == Offset(p);
    r := ListFrom(ks, data, offset, p.limit);
    ListFromIsListing(ks, data, offset, p.limit);
  }

  /** The page offset as the program computes it, in `usize` arithmetic: a build without
      overflow checks reduces the product modulo 2^64. */
  function WrappedOffset(p: Pagination): (o: Usize)
    requires Positive(p)
    ensures o == Offset(p) <==> Offset(p) < USIZE_BOUND
  {
    ((p.page - 1) * p.limit) % USIZE_BOUND
  }

  /** `list` as written: the same as `List` but with the wrapped offset. */
  method ListAsWritten(data: ItemMap, p: Pagination) returns (r: seq<Item>)
    requires Positive(p)
    ensures IsListing(r, data, WrappedOffset(p), p.limit)
    ensures |r| <= p.limit && SortedByUpdate(r)
  {
    var ks := EnumerateKeys(data);
    var offset := WrappedOffset(p);
    r := ListFrom(ks, data, offset, p.limit);
    ListFromIsListing(ks, data, offset, p.limit);
  }

  /** Page 2^63 + 1 with two entries per page: the exact offset is 2^64, past any map. */
  const WRAP_EXAMPLE: Pagination := Pagination(0x8000_0000_0000_0001, 2)

  /** A one-entry map has a single iteration order. */
  lemma SingleEnumeration(id: Uuid, it: Item, ks: seq<Uuid>)
    requires Enumerates(ks, map[id := it])
    ensures ks == [id]
  {
    assert id in ks;
    assert ks[0] in map[id := it];
    if |ks| > 1 {
      FirstTwoDiffer(ks);
      assert false;
    }
  }

  lemma FirstTwoDiffer(ks: seq<Uuid>)
    requires Distinct(ks) && |ks| > 1
    ensures ks[0] != ks[1]
  {
  }

  /** With `WRAP_EXAMPLE` and a single stored item, the program's `list` returns that item
      although the requested page lies far beyond the end, where the exact offset gives nothing. */
  lemma WrappedOffsetReturnsFirstPage(id: Uuid, it: Item, asWritten: seq<Item>, exact: seq<Item>)
    requires IsListing(asWritten, map[id := it], WrappedOffset(WRAP_EXAMPLE), WRAP_EXAMPLE.limit)
    requires IsListing(exact, map[id := it], Offset(WRAP_EXAMPLE), WRAP_EXAMPLE.limit)
    ensures asWritten == [it] && exact == []
  {
    assert Offset(WRAP_EXAMPLE) == USIZE_BOUND;
    assert WrappedOffset(WRAP_EXAMPLE) == 0;
    var ks1 :| Enumerates(ks1, map[id := it]) && SortedKeys(ks1, map[id := it])
      && asWritten == Window(ValuesAt(ks1, map[id := it]), 0, 2);
    SingleEnumeration(id, it, ks1);
    var ks2 :| Enumerates(ks2, map[id := it]) && SortedKeys(ks2, map[id := it])
      && exact == Window(ValuesAt(ks2, map[id := it]), USIZE_BOUND, 2);
    SingleEnumeration(id, it, ks2);
  }

  /** Whatever the iteration order, two consecutive pages are adjacent slices of it: nothing is
      skipped and nothing repeats between them. */
  lemma ConsecutivePages(s: seq<Item>, offset: nat, limit: nat)
    requires offset + limit <= |s|
    ensures Window(s, offset, limit) + Window(s, offset + limit, limit) == Window(s, offset, 2 * limit)
  {
    var a := Window(s, offset, limit);
    var b := Window(s, offset + limit, limit);
    var c := Window(s, offset, 2 * limit);
    assert |a + b| == |c|;
    forall i | 0 <= i < |c|
      ensures (a + b)[i] == c[i]
    {
      if i >= |a| {
        assert (a + b)[i] == b[i - limit];
      }
    }
  }
}
