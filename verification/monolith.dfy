/** The single-file generation of the collection cache (src/collections.ts):
    slots are named by `collectionName`, only fetch and add are handled, and
    add stores the updated collection in place of the whole group of its type. */
module Monolith {
  import opened Wrappers
  import opened Js
  import opened Events
  import opened Store
  import Collections
  import LegacyCollections

  /** What a type maps to: normally a group of collections by name, but a
      single collection once an add has replaced the group. */
  datatype Entry = Group(slots: map<string, Collection>) | Single(collection: Collection)

  type MonolithStore = map<string, Entry>

  /** The property names a stored collection object can have. */
  const CollectionFields: set<string> := {"page", "ordering", "reverseOrdering", "count", "next", "filters", "results"}

  /** `buildCollectionsStore(mapping)`. */
  function BuildStore(mapping: Registry): (s: MonolithStore)
    ensures s.Keys == mapping.Keys
    ensures forall t :: t in s ==> s[t] == Group(map[])
  {
    map t | t in mapping :: Group(map[])
  }

  /** `collectionStore[key][name]` can be read as a collection: the type has
      an entry, and a single collection is not asked for one of its own
      fields. */
  predicate SlotReadable(store: MonolithStore, key: string, name: string) {
    key in store && (store[key].Single? ==> name !in CollectionFields)
  }

  /** `getCollectionByName(store, key, name = '')`. A single collection has
      no slots, so every name reads the empty first page. */
  function GetCollectionByName(store: MonolithStore, key: string, name: Option<string>): (c: Collection)
    requires SlotReadable(store, key, name.GetOr(""))
    ensures store[key].Group? && name.GetOr("") in store[key].slots ==> c == store[key].slots[name.GetOr("")]
    ensures !(store[key].Group? && name.GetOr("") in store[key].slots) ==> c == EmptyCollection
  {
    match store[key]
    case Group(slots) => if name.GetOr("") in slots then slots[name.GetOr("")] else EmptyCollection
    case Single(_) => EmptyCollection
  }

  /** The event is well formed and names a registered tag. Reading the tag of
      a well-formed event without metadata throws. */
  predicate Addressed(action: Action, mapping: Registry)
    requires action.fsa ==> action.meta.Some?
  {
    action.fsa && KeyOf(action.meta.value.tag) in mapping
  }

  predicate FetchReadable(state: MonolithStore, action: Action, mapping: Registry) {
    (action.fsa ==> action.meta.Some?)
    && (Addressed(action, mapping) ==>
      var t := KeyOf(action.meta.value.tag);
      t in state && state[t].Group? && LegacyCollections.BodyReadable(action.payload))
  }

  /** `setCollectionFromResponseAction(state, action, mapping)`: old results
      are read at `collectionName || ''` and the new collection is written at
      `[collectionName]`; count and page follow the middle generation. */
  function Fetch(state: MonolithStore, action: Action, mapping: Registry): (r: MonolithStore)
    requires FetchReadable(state, action, mapping)
    ensures !Addressed(action, mapping) ==> r == state
    ensures Addressed(action, mapping) ==>
      var m := action.meta.value;
      var t := KeyOf(m.tag);
      var slots := state[t].slots;
      var written := KeyOf(m.collectionName);
      r.Keys == state.Keys
      && (forall u :: u in state && u != t ==> r[u] == state[u])
      && r[t].Group? && r[t].slots.Keys == slots.Keys + {written}
      && (forall g :: g in slots && g != written ==> r[t].slots[g] == slots[g])
      && r[t].slots[written] == LegacyCollections.Fetched(
           Collections.SlotOf(slots, OrStr(m.collectionName, "")), m, action.payload, mapping[t])
  {
    if Addressed(action, mapping) then
      var m := action.meta.value;
      var t := KeyOf(m.tag);
      var slots := state[t].slots;
      var c := LegacyCollections.Fetched(Collections.SlotOf(slots, OrStr(m.collectionName, "")), m, action.payload, mapping[t]);
      state[t := Group(slots[KeyOf(m.collectionName) := c])]
    else state
  }

  predicate AddReadable(state: MonolithStore, action: Action, mapping: Registry) {
    (action.fsa ==> action.meta.Some?)
    && (Addressed(action, mapping) ==>
      SlotReadable(state, KeyOf(action.meta.value.tag), action.meta.value.collectionName.GetOr("")))
  }

  /** `addCollectionItem(state, action, mapping)`: the named collection gains
      the built record and one count, and becomes the type's whole entry. */
  function Add(state: MonolithStore, action: Action, mapping: Registry): (r: MonolithStore)
    requires AddReadable(state, action, mapping)
    ensures !Addressed(action, mapping) ==> r == state
    ensures Addressed(action, mapping) ==>
      var m := action.meta.value;
      var t := KeyOf(m.tag);
      var before := GetCollectionByName(state, t, m.collectionName);
      r.Keys == state.Keys
      && (forall u :: u in state && u != t ==> r[u] == state[u])
      && r[t].Single?
      && r[t].collection.results == before.results + [mapping[t](action.payload)]
      && r[t].collection.count == Collections.Increment(before.count)
      && r[t].collection == before.(count := r[t].collection.count, results := r[t].collection.results)
  {
    if Addressed(action, mapping) then
      var m := action.meta.value;
      var t := KeyOf(m.tag);
      var before := GetCollectionByName(state, t, m.collectionName);
      state[t := Single(before.(count := Collections.Increment(before.count),
                                 results := before.results + [mapping[t](action.payload)]))]
    else state
  }

  predicate Readable(state: MonolithStore, action: Action, mapping: Registry) {
    if action.kind == GetCollection.success then FetchReadable(state, action, mapping)
    else if action.kind == AddToCollection.success then AddReadable(state, action, mapping)
    else true
  }

  /** `collectionsReducer(state = buildCollectionsStore(mapping), action)`:
      only fetch and add successes are handled. */
  function CollectionsReducer(state: Option<MonolithStore>, action: Action, mapping: Registry): (r: MonolithStore)
    requires Readable(state.GetOr(BuildStore(mapping)), action, mapping)
    ensures var s := state.GetOr(BuildStore(mapping));
      (action.kind == GetCollection.success ==> r == Fetch(s, action, mapping))
      && (action.kind == AddToCollection.success ==> r == Add(s, action, mapping))
    ensures action.kind != GetCollection.success && action.kind != AddToCollection.success ==>
      r == state.GetOr(BuildStore(mapping))
  {
    var s := state.GetOr(BuildStore(mapping));
    if action.kind == GetCollection.success then Fetch(s, action, mapping)
    else if action.kind == AddToCollection.success then Add(s, action, mapping)
    else s
  }

  // ---------------------------------------------------------------------
  // Consequences of the monolith's rules.

  /** Delete and clear events are not handled: the state is returned as is. */
  lemma DeleteAndClearIgnored(state: MonolithStore, action: Action, mapping: Registry)
    requires action.kind == DeleteFromCollection.success || action.kind == ClearCollectionType
    ensures CollectionsReducer(Some(state), action, mapping) == state
  {
    Collections.RoutedTypesDistinct();
  }

  /** After an add, every other named collection of that type is gone: the
      type holds one collection and any name reads the empty first page. */
  lemma {:induction false} AddDropsOtherCollections(state: MonolithStore, action: Action, mapping: Registry, other: string)
    requires AddReadable(state, action, mapping) && Addressed(action, mapping)
    requires other !in CollectionFields
    ensures var r := Add(state, action, mapping);
      var t := KeyOf(action.meta.value.tag);
      SlotReadable(r, t, other) && GetCollectionByName(r, t, Some(other)) == EmptyCollection
  {
  }

  /** A fetch is read at the collection name; an event carrying only a
      `subgroup` (as the newer action creators send) is stored under the key
      "undefined". */
  lemma FetchIgnoresSubgroup(state: MonolithStore, action: Action, mapping: Registry)
    requires FetchReadable(state, action, mapping) && Addressed(action, mapping)
    requires action.meta.value.collectionName.None?
    ensures var t := KeyOf(action.meta.value.tag);
      "undefined" in Fetch(state, action, mapping)[t].slots
  {
  }

  /** A fresh store reads an empty first page for every registered type and name. */
  lemma FreshStoreIsEmpty(mapping: Registry, key: string, name: Option<string>)
    requires key in mapping
    ensures SlotReadable(BuildStore(mapping), key, name.GetOr(""))
    ensures GetCollectionByName(BuildStore(mapping), key, name) == EmptyCollection
  {
  }
}
