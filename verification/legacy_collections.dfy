/** The collection reducers of the middle generation (src/collections): the
    response body is the payload itself, the count and page are copied as
    sent, and fetch and clear write the slot at the subgroup exactly as
    given. Add and delete are the same code as in the newest generation. */
module LegacyCollections {
  import opened Wrappers
  import opened Js
  import opened Events
  import opened Store
  import Collections

  /** The payload is an object whose `results` is an array. */
  predicate BodyReadable(payload: Json) {
    !Nullish(payload) && Get(payload, "results").Arr?
  }

  /** The collection this generation's fetch stores: `count` is the length
      when appending and the sent count otherwise, `page` and `next` are as
      sent. */
  function Fetched(prior: Option<Collection>, m: Meta, body: Json, builder: Builder): (c: Collection)
    requires BodyReadable(body)
    ensures var incoming := Collections.BuildAll(builder, Get(body, "results").elems);
      var before := if prior.Some? then prior.value.results else [];
      c.results == if TruthyBool(m.shouldAppend) then before + incoming else incoming
    ensures TruthyBool(m.shouldAppend) ==> c.count == Some(|c.results|)
    ensures !TruthyBool(m.shouldAppend) ==> c.count == IntAt(body, "count")
    ensures c.page == IntAt(body, "page") && c.next == StrAt(body, "next")
    ensures c.ordering == m.ordering && c.reverseOrdering == m.reverseOrdering && c.filters == m.filters
  {
    var incoming := Collections.BuildAll(builder, Get(body, "results").elems);
    var before := if prior.Some? then prior.value.results else [];
    var results := if TruthyBool(m.shouldAppend) then before + incoming else incoming;
    Collection(
      page := IntAt(body, "page"),
      count := if TruthyBool(m.shouldAppend) then Some(|results|) else IntAt(body, "count"),
      ordering := m.ordering,
      reverseOrdering := m.reverseOrdering,
      next := StrAt(body, "next"),
      filters := m.filters,
      results := results)
  }

  predicate FetchReadable(state: CollectionStore, action: Action, mapping: Registry) {
    Collections.Addressed(action, mapping) ==>
      KeyOf(action.meta.value.tag) in state && BodyReadable(action.payload)
  }

  /** `setCollectionFromResponseAction(state, action, mapping)`: the old
      results are read at `subgroup || ''` and the new collection is written
      at `[subgroup]`, the key "undefined" when the subgroup is absent. */
  function Fetch(state: CollectionStore, action: Action, mapping: Registry): (r: CollectionStore)
    requires FetchReadable(state, action, mapping)
    ensures !Collections.Addressed(action, mapping) ==> r == state
    ensures Collections.Addressed(action, mapping) ==>
      var m := action.meta.value;
      var t := KeyOf(m.tag);
      var written := KeyOf(m.subgroup);
      r.Keys == state.Keys
      && (forall u :: u in state && u != t ==> r[u] == state[u])
      && r[t].Keys == state[t].Keys + {written}
      && (forall g :: g in state[t] && g != written ==> r[t][g] == state[t][g])
      && r[t][written] == Fetched(Collections.SlotOf(state[t], OrStr(m.subgroup, "")), m, action.payload, mapping[t])
  {
    if Collections.Addressed(action, mapping) then
      var m := action.meta.value;
      var t := KeyOf(m.tag);
      var c := Fetched(Collections.SlotOf(state[t], OrStr(m.subgroup, "")), m, action.payload, mapping[t]);
      state[t := state[t][KeyOf(m.subgroup) := c]]
    else state
  }

  /** `clearCollection(state, action, mapping)`: slot `payload.subgroup`, as
      given, becomes an empty first page. */
  function Clear(state: CollectionStore, action: Action, mapping: Registry): (r: CollectionStore)
    ensures !Collections.ClearAddressed(action, mapping) ==> r == state
    ensures Collections.ClearAddressed(action, mapping) ==>
      var t := KeyOf(StrAt(action.payload, "type"));
      var written := KeyOf(StrAt(action.payload, "subgroup"));
      var g := if t in state then state[t] else map[];
      r.Keys == state.Keys + {t}
      && (forall u :: u in state && u != t ==> r[u] == state[u])
      && r[t].Keys == g.Keys + {written}
      && (forall k :: k in g && k != written ==> r[t][k] == g[k])
      && r[t][written] == EmptyCollection
  {
    if Collections.ClearAddressed(action, mapping) then
      var t := KeyOf(StrAt(action.payload, "type"));
      var g := if t in state then state[t] else map[];
      state[t := g[KeyOf(StrAt(action.payload, "subgroup")) := EmptyCollection]]
    else state
  }

  predicate Readable(state: CollectionStore, action: Action, mapping: Registry) {
    if action.kind == GetCollection.success then FetchReadable(state, action, mapping)
    else if action.kind == AddToCollection.success || action.kind == DeleteFromCollection.success then
      Collections.GroupReadable(state, action, mapping)
    else true
  }

  /** `collectionsReducer(state = buildCollectionsStore(mapping), action)`. */
  function CollectionsReducer(state: Option<CollectionStore>, action: Action, mapping: Registry): (r: CollectionStore)
    requires Readable(state.GetOr(BuildCollectionsStore(mapping)), action, mapping)
    ensures var s := state.GetOr(BuildCollectionsStore(mapping));
      (action.kind == GetCollection.success ==> r == Fetch(s, action, mapping))
      && (action.kind == AddToCollection.success ==> r == Collections.Add(s, action, mapping))
      && (action.kind == DeleteFromCollection.success ==> r == Collections.Delete(s, action, mapping))
      && (action.kind == ClearCollectionType ==> r == Clear(s, action, mapping))
    ensures (action.kind !in {GetCollection.success, AddToCollection.success,
      DeleteFromCollection.success, ClearCollectionType}) ==> r == state.GetOr(BuildCollectionsStore(mapping))
  {
    var s := state.GetOr(BuildCollectionsStore(mapping));
    Collections.RoutedTypesDistinct();
    if action.kind == GetCollection.success then Fetch(s, action, mapping)
    else if action.kind == AddToCollection.success then Collections.Add(s, action, mapping)
    else if action.kind == DeleteFromCollection.success then Collections.Delete(s, action, mapping)
    else if action.kind == ClearCollectionType then Clear(s, action, mapping)
    else s
  }

  // ---------------------------------------------------------------------
  // How this generation differs from the newest one.

  /** When not appending, the count is the sent count even when that is
      absent or 0, where the newest generation falls back to the length. */
  lemma {:induction false} CountCopiedVerbatim(state: CollectionStore, action: Action, mapping: Registry)
    requires FetchReadable(state, action, mapping) && Collections.Addressed(action, mapping)
    requires !TruthyBool(action.meta.value.shouldAppend)
    ensures var m := action.meta.value;
      Fetch(state, action, mapping)[KeyOf(m.tag)][KeyOf(m.subgroup)].count == IntAt(action.payload, "count")
  {
  }

  /** A response without a page leaves the page absent; there is no default of 1. */
  lemma PageCopiedVerbatim(state: CollectionStore, action: Action, mapping: Registry)
    requires FetchReadable(state, action, mapping) && Collections.Addressed(action, mapping)
    requires IntAt(action.payload, "page").None?
    ensures var m := action.meta.value;
      Fetch(state, action, mapping)[KeyOf(m.tag)][KeyOf(m.subgroup)].page.None?
  {
  }

  /** A fetch whose event names no subgroup reads slot '' and writes the key
      "undefined", so slot '' is never refreshed by it. */
  lemma FetchWithoutSubgroupWritesUndefinedKey(state: CollectionStore, action: Action, mapping: Registry)
    requires FetchReadable(state, action, mapping) && Collections.Addressed(action, mapping)
    requires action.meta.value.subgroup.None?
    ensures var t := KeyOf(action.meta.value.tag);
      var r := Fetch(state, action, mapping);
      "undefined" in r[t] && ("" in state[t] ==> "" in r[t] && r[t][""] == state[t][""])
  {
  }

  /** A clear whose payload names no subgroup empties the key "undefined"
      and leaves slot '' as it was. */
  lemma ClearWithoutSubgroupWritesUndefinedKey(state: CollectionStore, action: Action, mapping: Registry)
    requires Collections.ClearAddressed(action, mapping)
    requires StrAt(action.payload, "subgroup").None?
    requires KeyOf(StrAt(action.payload, "type")) in state
    ensures var t := KeyOf(StrAt(action.payload, "type"));
      var r := Clear(state, action, mapping);
      r[t]["undefined"] == EmptyCollection && ("" in state[t] ==> r[t][""] == state[t][""])
  {
  }

  /** Clearing twice is clearing once. */
  lemma ClearIdempotent(state: CollectionStore, action: Action, mapping: Registry)
    ensures Clear(Clear(state, action, mapping), action, mapping) == Clear(state, action, mapping)
  {
    var once := Clear(state, action, mapping);
    if Collections.ClearAddressed(action, mapping) {
      var t := KeyOf(StrAt(action.payload, "type"));
      var w := KeyOf(StrAt(action.payload, "subgroup"));
      assert once[t][w := EmptyCollection] == once[t];
      assert once[t := once[t]] == once;
    }
  }

  /** Replaying the same replacing fetch with a subgroup changes nothing more. */
  lemma {:induction false} FetchReplaceIdempotent(state: CollectionStore, action: Action, mapping: Registry)
    requires FetchReadable(state, action, mapping)
    requires action.meta.Some? ==> !TruthyBool(action.meta.value.shouldAppend)
    ensures FetchReadable(Fetch(state, action, mapping), action, mapping)
    ensures Fetch(Fetch(state, action, mapping), action, mapping) == Fetch(state, action, mapping)
  {
    var once := Fetch(state, action, mapping);
    if Collections.Addressed(action, mapping) {
      var m := action.meta.value;
      var t := KeyOf(m.tag);
      var w := KeyOf(m.subgroup);
      var c1 := Fetched(Collections.SlotOf(state[t], OrStr(m.subgroup, "")), m, action.payload, mapping[t]);
      var c2 := Fetched(Collections.SlotOf(once[t], OrStr(m.subgroup, "")), m, action.payload, mapping[t]);
      assert c2 == c1;
      assert once[t][w := c2] == once[t];
      assert once[t := once[t]] == once;
    }
  }
}
