/** The shape of the collection store and its read accessors: a map from type
    tag to a group, and from subgroup to one collection. */
module Store {
  import opened Wrappers
  import opened Js

  /** A record constructor registered for a type (`RecordConstructor`). */
  type Builder = Json -> Record

  /** The type-to-record mapping: which tags exist and how to build their records. */
  type Registry = map<string, Builder>

  /** One paginated collection (`Collection`). `page` and `count` are absent
      when they are `undefined` or not a number (`NaN`). */
  datatype Collection = Collection(
    page: Option<int>,
    count: Option<int>,
    ordering: Option<string>,
    reverseOrdering: Option<bool>,
    next: Option<string>,
    filters: Option<Dict>,
    results: seq<Record>)

  /** `{page: 1, count: 0, results: []}`. */
  const EmptyCollection := Collection(Some(1), Some(0), None, None, None, None, [])

  type Group = map<string, Collection>
  type CollectionStore = map<string, Group>

  /** Every registered tag has a group in the store. */
  predicate Covers(state: CollectionStore, mapping: Registry) {
    forall t :: t in mapping ==> t in state
  }

  /** `buildCollectionsStore(mapping)`. */
  function BuildCollectionsStore(mapping: Registry): (s: CollectionStore)
    ensures s.Keys == mapping.Keys
    ensures forall t :: t in s ==> s[t] == map[]
    ensures Covers(s, mapping)
  {
    map t | t in mapping :: map[]
  }

  /** `getCollectionByName(store, key, subgroup = '')`: the stored slot, or an
      empty first page. Reading a tag the store has no group for throws. */
  function GetCollectionByName(store: CollectionStore, key: string, subgroup: Option<string>): (c: Collection)
    requires key in store
    ensures subgroup.GetOr("") in store[key] ==> c == store[key][subgroup.GetOr("")]
    ensures subgroup.GetOr("") !in store[key] ==> c == EmptyCollection
  {
    var slot := subgroup.GetOr("");
    if slot in store[key] then store[key][slot] else EmptyCollection
  }

  /** `getCollectionResultsByName(store, key, subgroup = '')`. */
  function GetCollectionResultsByName(store: CollectionStore, key: string, subgroup: Option<string>): (rs: seq<Record>)
    requires key in store
    ensures subgroup.GetOr("") !in store[key] ==> rs == []
    ensures subgroup.GetOr("") in store[key] ==> rs == store[key][subgroup.GetOr("")].results
  {
    GetCollectionByName(store, key, subgroup).results
  }

  /** A fresh store answers every slot of every registered tag with an empty
      first page. */
  lemma FreshStoreIsEmpty(mapping: Registry, key: string, subgroup: Option<string>)
    requires key in mapping
    ensures key in BuildCollectionsStore(mapping)
    ensures GetCollectionByName(BuildCollectionsStore(mapping), key, subgroup) == EmptyCollection
    ensures GetCollectionResultsByName(BuildCollectionsStore(mapping), key, subgroup) == []
  {
  }
}
