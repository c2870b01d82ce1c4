/** The collection reducers of the newest generation (src/ts/collections):
    fetch (replace or append), add, delete by id and clear, and the routing
    reducer with its optional plugin. */
module Collections {
  import opened Wrappers
  import opened Js
  import opened Events
  import opened Store

  /** `results.map(itemConstructor)`. */
  function BuildAll(builder: Builder, xs: seq<Json>): (rs: seq<Record>)
    ensures |rs| == |xs|
    ensures forall i :: 0 <= i < |xs| ==> rs[i] == builder(xs[i])
  {
    seq(|xs|, i requires 0 <= i < |xs| => builder(xs[i]))
  }

  /** `results.filter(item => item.id !== itemId)`. */
  function Without(rs: seq<Record>, id: Json): (kept: seq<Record>)
    ensures |kept| <= |rs|
    ensures forall x :: x in kept <==> x in rs && IdOf(x) != id
    ensures (forall i :: 0 <= i < |rs| ==> IdOf(rs[i]) != id) ==> kept == rs
    decreases |rs|
  {
    if |rs| == 0 then []
    else if IdOf(rs[0]) != id then [rs[0]] + Without(rs[1..], id)
    else Without(rs[1..], id)
  }

  /** The filter works record by record: filtering a concatenation filters
      each part and keeps them in order. */
  lemma {:induction false} WithoutAppend(a: seq<Record>, b: seq<Record>, id: Json)
    ensures Without(a + b, id) == Without(a, id) + Without(b, id)
    decreases |a|
  {
    if |a| > 0 {
      assert (a + b)[1..] == a[1..] + b;
      WithoutAppend(a[1..], b, id);
    } else {
      assert a + b == b;
    }
  }

  /** A single record survives exactly when its id differs. */
  lemma WithoutSingle(x: Record, id: Json)
    ensures Without([x], id) == if IdOf(x) != id then [x] else []
  {
    assert [x][1..] == [];
  }

  /** Deleting one of two records with different ids leaves the other alone. */
  lemma {:induction false} WithoutOneOfTwo(a: Record, b: Record)
    requires IdOf(a) != IdOf(b)
    ensures Without([a, b], IdOf(a)) == [b]
  {
    WithoutAppend([a], [b], IdOf(a));
    assert [a] + [b] == [a, b];
    WithoutSingle(a, IdOf(a));
    WithoutSingle(b, IdOf(a));
  }

  /** Filtering twice by the same id removes nothing more. */
  lemma {:induction false} WithoutIdempotent(rs: seq<Record>, id: Json)
    ensures Without(Without(rs, id), id) == Without(rs, id)
  {
    var kept := Without(rs, id);
    assert forall i :: 0 <= i < |kept| ==> kept[i] in kept;
  }

  /** The slot a subgroup addresses in a group, if it is filled. */
  function SlotOf(g: Group, key: string): (c: Option<Collection>)
    ensures c.Some? <==> key in g
    ensures c.Some? ==> c.value == g[key]
  {
    if key in g then Some(g[key]) else None
  }

  /** A collection response's `payload.data` can be read: `payload` and
      `payload.data` are objects and `results` is an array. */
  predicate ResponseReadable(payload: Json) {
    !Nullish(payload) && !Nullish(Get(payload, "data")) && Get(Get(payload, "data"), "results").Arr?
  }

  /** The collection a fetch response puts in its slot: `count ||
      results.length`, `meta.page || page || 1`, and the old results kept in
      front only when appending. */
  function Fetched(prior: Option<Collection>, m: Meta, data: Json, builder: Builder): (c: Collection)
    requires !Nullish(data) && Get(data, "results").Arr?
    ensures var incoming := BuildAll(builder, Get(data, "results").elems);
      var before := if prior.Some? then prior.value.results else [];
      c.results == if TruthyBool(m.shouldAppend) then before + incoming else incoming
    ensures TruthyInt(IntAt(data, "count")) ==> c.count == IntAt(data, "count")
    ensures !TruthyInt(IntAt(data, "count")) ==> c.count == Some(|c.results|)
    ensures TruthyInt(m.page) ==> c.page == m.page
    ensures !TruthyInt(m.page) && TruthyInt(IntAt(data, "page")) ==> c.page == IntAt(data, "page")
    ensures !TruthyInt(m.page) && !TruthyInt(IntAt(data, "page")) ==> c.page == Some(1)
    ensures c.ordering == m.ordering && c.reverseOrdering == m.reverseOrdering && c.filters == m.filters
    ensures c.next == StrAt(data, "next")
  {
    var incoming := BuildAll(builder, Get(data, "results").elems);
    var before := if prior.Some? then prior.value.results else [];
    var results := if TruthyBool(m.shouldAppend) then before + incoming else incoming;
    var count := IntAt(data, "count");
    var page := IntAt(data, "page");
    Collection(
      page := if TruthyInt(m.page) then m.page else if TruthyInt(page) then page else Some(1),
      count := if TruthyInt(count) then count else Some(|results|),
      ordering := m.ordering,
      reverseOrdering := m.reverseOrdering,
      next := StrAt(data, "next"),
      filters := m.filters,
      results := results)
  }

  /** The event carries metadata naming a registered tag. */
  predicate Addressed(action: Action, mapping: Registry) {
    action.fsa && action.meta.Some? && KeyOf(action.meta.value.tag) in mapping
  }

  /** What `setCollectionFromResponseAction` reads without a guard: the
      group of the tag and the response body. */
  predicate FetchReadable(state: CollectionStore, action: Action, mapping: Registry) {
    Addressed(action, mapping) ==>
      KeyOf(action.meta.value.tag) in state && ResponseReadable(action.payload)
  }

  /** `setCollectionFromResponseAction(state, action, mapping)`: the response
      replaces slot `subgroup || ''` of the tagged type and nothing else. */
  function Fetch(state: CollectionStore, action: Action, mapping: Registry): (r: CollectionStore)
    requires FetchReadable(state, action, mapping)
    ensures !Addressed(action, mapping) ==> r == state
    ensures Addressed(action, mapping) ==>
      var m := action.meta.value;
      var t := KeyOf(m.tag);
      var slot := OrStr(m.subgroup, "");
      r.Keys == state.Keys
      && (forall u :: u in state && u != t ==> r[u] == state[u])
      && r[t].Keys == state[t].Keys + {slot}
      && (forall g :: g in state[t] && g != slot ==> r[t][g] == state[t][g])
      && r[t][slot] == Fetched(SlotOf(state[t], slot), m, Get(action.payload, "data"), mapping[t])
  {
    if Addressed(action, mapping) then
      var m := action.meta.value;
      var t := KeyOf(m.tag);
      var slot := OrStr(m.subgroup, "");
      var c := Fetched(SlotOf(state[t], slot), m, Get(action.payload, "data"), mapping[t]);
      state[t := state[t][slot := c]]
    else state
  }

  /** `count + 1`, where an absent count stays absent (`NaN`). */
  function Increment(count: Option<int>): (r: Option<int>)
    ensures count.Some? <==> r.Some?
    ensures count.Some? ==> r.value == count.value + 1
  {
    match count
    case Some(n) => Some(n + 1)
    case None => None
  }

  /** What `addCollectionItem` and `deleteCollectionItem` read without a
      guard: the group of the tag. */
  predicate GroupReadable(state: CollectionStore, action: Action, mapping: Registry) {
    Addressed(action, mapping) ==> KeyOf(action.meta.value.tag) in state
  }

  /** `addCollectionItem(state, action, mapping)`: the built record goes last
      in slot `subgroup || ''` (an empty first page when the slot is empty),
      the count goes up by one and every other field is kept. */
  function Add(state: CollectionStore, action: Action, mapping: Registry): (r: CollectionStore)
    requires GroupReadable(state, action, mapping)
    ensures !Addressed(action, mapping) ==> r == state
    ensures Addressed(action, mapping) ==>
      var m := action.meta.value;
      var t := KeyOf(m.tag);
      var slot := OrStr(m.subgroup, "");
      var before := GetCollectionByName(state, t, Some(slot));
      r.Keys == state.Keys
      && (forall u :: u in state && u != t ==> r[u] == state[u])
      && r[t].Keys == state[t].Keys + {slot}
      && (forall g :: g in state[t] && g != slot ==> r[t][g] == state[t][g])
      && r[t][slot].results == before.results + [mapping[t](action.payload)]
      && r[t][slot].count == Increment(before.count)
      && r[t][slot] == before.(count := r[t][slot].count, results := r[t][slot].results)
  {
    if Addressed(action, mapping) then
      var m := action.meta.value;
      var t := KeyOf(m.tag);
      var slot := OrStr(m.subgroup, "");
      var before := GetCollectionByName(state, t, Some(slot));
      var after := before.(count := Increment(before.count), results := before.results + [mapping[t](action.payload)]);
      state[t := state[t][slot := after]]
    else state
  }

  /** `deleteCollectionItem(state, action, mapping)`: every record whose id is
      `meta.itemId` leaves the collection and the count becomes the number
      left. The slot is read at `subgroup` (absent meaning '') but written
      at `[subgroup]`, which is the key "undefined" when it is absent. */
  function Delete(state: CollectionStore, action: Action, mapping: Registry): (r: CollectionStore)
    requires GroupReadable(state, action, mapping)
    ensures !Addressed(action, mapping) ==> r == state
    ensures Addressed(action, mapping) ==>
      var m := action.meta.value;
      var t := KeyOf(m.tag);
      var written := KeyOf(m.subgroup);
      var before := GetCollectionByName(state, t, m.subgroup);
      r.Keys == state.Keys
      && (forall u :: u in state && u != t ==> r[u] == state[u])
      && r[t].Keys == state[t].Keys + {written}
      && (forall g :: g in state[t] && g != written ==> r[t][g] == state[t][g])
      && r[t][written].results == Without(before.results, StrOrUndefined(m.itemId))
      && (forall x :: x in r[t][written].results <==>
            x in before.results && IdOf(x) != StrOrUndefined(m.itemId))
      && r[t][written].count == Some(|Without(before.results, StrOrUndefined(m.itemId))|)
      && r[t][written] == before.(count := r[t][written].count, results := r[t][written].results)
  {
    if Addressed(action, mapping) then
      var m := action.meta.value;
      var t := KeyOf(m.tag);
      var before := GetCollectionByName(state, t, m.subgroup);
      var kept := Without(before.results, StrOrUndefined(m.itemId));
      var after := before.(count := Some(|kept|), results := kept);
      state[t := state[t][KeyOf(m.subgroup) := after]]
    else state
  }

  /** A clear event is a well-formed event with a truthy payload naming a
      registered type. */
  predicate ClearAddressed(action: Action, mapping: Registry) {
    action.fsa && Truthy(action.payload) && KeyOf(StrAt(action.payload, "type")) in mapping
  }

  /** `clearCollection(state, action, mapping)`: slot `payload.subgroup || ''`
      of `payload.type` becomes an empty first page. */
  function Clear(state: CollectionStore, action: Action, mapping: Registry): (r: CollectionStore)
    ensures !ClearAddressed(action, mapping) ==> r == state
    ensures ClearAddressed(action, mapping) ==>
      var t := KeyOf(StrAt(action.payload, "type"));
      var slot := OrStr(StrAt(action.payload, "subgroup"), "");
      var g := if t in state then state[t] else map[];
      r.Keys == state.Keys + {t}
      && (forall u :: u in state && u != t ==> r[u] == state[u])
      && r[t].Keys == g.Keys + {slot}
      && (forall k :: k in g && k != slot ==> r[t][k] == g[k])
      && r[t][slot] == EmptyCollection
  {
    if ClearAddressed(action, mapping) then
      var t := KeyOf(StrAt(action.payload, "type"));
      var slot := OrStr(StrAt(action.payload, "subgroup"), "");
      var g := if t in state then state[t] else map[];
      state[t := g[slot := EmptyCollection]]
    else state
  }

  /** What the routing reducer needs so that the reducer it picks does not throw. */
  predicate Readable(state: CollectionStore, action: Action, mapping: Registry) {
    if action.kind == GetCollection.success then FetchReadable(state, action, mapping)
    else if action.kind == AddToCollection.success || action.kind == DeleteFromCollection.success then
      GroupReadable(state, action, mapping)
    else true
  }

  /** The built-in part of `collectionsReducer`: the switch on the event type. */
  function Route(state: CollectionStore, action: Action, mapping: Registry): (r: CollectionStore)
    requires Readable(state, action, mapping)
    ensures action.kind == GetCollection.success ==> r == Fetch(state, action, mapping)
    ensures action.kind == AddToCollection.success ==> r == Add(state, action, mapping)
    ensures action.kind == DeleteFromCollection.success ==> r == Delete(state, action, mapping)
    ensures action.kind == ClearCollectionType ==> r == Clear(state, action, mapping)
    ensures (action.kind !in {GetCollection.success, AddToCollection.success,
      DeleteFromCollection.success, ClearCollectionType}) ==> r == state
  {
    if action.kind == GetCollection.success then Fetch(state, action, mapping)
    else if action.kind == AddToCollection.success then Add(state, action, mapping)
    else if action.kind == DeleteFromCollection.success then Delete(state, action, mapping)
    else if action.kind == ClearCollectionType then Clear(state, action, mapping)
    else state
  }

  /** `collectionsReducer(state = buildCollectionsStore(mapping), action)`,
      with the plugin given to the functor, if any, applied to the built-in
      result for every event. */
  function CollectionsReducer(
    state: Option<CollectionStore>, action: Action, mapping: Registry,
    plugin: Option<(CollectionStore, Action) -> CollectionStore>): (r: CollectionStore)
    requires Readable(state.GetOr(BuildCollectionsStore(mapping)), action, mapping)
    ensures var s := state.GetOr(BuildCollectionsStore(mapping));
      plugin.Some? ==> r == plugin.value(Route(s, action, mapping), action)
    ensures var s := state.GetOr(BuildCollectionsStore(mapping));
      plugin.None? ==> r == Route(s, action, mapping)
  {
    var s := state.GetOr(BuildCollectionsStore(mapping));
    var built := Route(s, action, mapping);
    if plugin.Some? then plugin.value(built, action) else built
  }

  // ---------------------------------------------------------------------
  // Properties relating several events.

  /** The four event types the reducer routes are pairwise different. */
  lemma RoutedTypesDistinct()
    ensures GetCollection.success != AddToCollection.success
    ensures GetCollection.success != DeleteFromCollection.success
    ensures AddToCollection.success != DeleteFromCollection.success
    ensures ClearCollectionType !in {GetCollection.success, AddToCollection.success, DeleteFromCollection.success}
  {
    ActionSetsDisjoint("GET_COLLECTION", "ADD_TO_COLLECTION");
    ActionSetsDisjoint("GET_COLLECTION", "DELETE_FROM_COLLECTION");
    ActionSetsDisjoint("ADD_TO_COLLECTION", "DELETE_FROM_COLLECTION");
    assert |ClearCollectionType| == 16;
    assert |GetCollection.success| == 22;
    assert |AddToCollection.success| == 25;
    assert |DeleteFromCollection.success| == 30;
  }

  /** Without a plugin, any event type other than the four routed ones leaves
      the state as it was. */
  lemma UnroutedEventIgnored(state: CollectionStore, action: Action, mapping: Registry)
    requires action.kind !in {GetCollection.success, AddToCollection.success,
      DeleteFromCollection.success, ClearCollectionType}
    ensures CollectionsReducer(Some(state), action, mapping, None) == state
  {
  }

  /** Replaying the same replacing fetch changes nothing more. */
  lemma {:induction false} FetchReplaceIdempotent(state: CollectionStore, action: Action, mapping: Registry)
    requires FetchReadable(state, action, mapping)
    requires action.meta.Some? ==> !TruthyBool(action.meta.value.shouldAppend)
    ensures FetchReadable(Fetch(state, action, mapping), action, mapping)
    ensures Fetch(Fetch(state, action, mapping), action, mapping) == Fetch(state, action, mapping)
  {
    var once := Fetch(state, action, mapping);
    if Addressed(action, mapping) {
      var m := action.meta.value;
      var t := KeyOf(m.tag);
      var slot := OrStr(m.subgroup, "");
      var data := Get(action.payload, "data");
      var c1 := Fetched(SlotOf(state[t], slot), m, data, mapping[t]);
      var c2 := Fetched(SlotOf(once[t], slot), m, data, mapping[t]);
      assert c2 == c1;
      assert once[t][slot := c2] == once[t];
    }
  }

  /** Two appending fetches of the same page leave its records twice, after
      what the slot held before. */
  lemma {:induction false} FetchAppendTwice(state: CollectionStore, action: Action, mapping: Registry)
    requires FetchReadable(state, action, mapping)
    requires Addressed(action, mapping) && TruthyBool(action.meta.value.shouldAppend)
    ensures FetchReadable(Fetch(state, action, mapping), action, mapping)
    ensures var m := action.meta.value;
      var t := KeyOf(m.tag);
      var slot := OrStr(m.subgroup, "");
      var incoming := BuildAll(mapping[t], Get(Get(action.payload, "data"), "results").elems);
      var before := if slot in state[t] then state[t][slot].results else [];
      Fetch(Fetch(state, action, mapping), action, mapping)[t][slot].results == before + incoming + incoming
  {
  }

  /** Clearing a slot twice is clearing it once. */
  lemma ClearIdempotent(state: CollectionStore, action: Action, mapping: Registry)
    ensures Clear(Clear(state, action, mapping), action, mapping) == Clear(state, action, mapping)
  {
    var once := Clear(state, action, mapping);
    if ClearAddressed(action, mapping) {
      var t := KeyOf(StrAt(action.payload, "type"));
      var slot := OrStr(StrAt(action.payload, "subgroup"), "");
      assert once[t][slot := EmptyCollection] == once[t];
      assert once[t := once[t]] == once;
    }
  }

  /** Deleting the same id twice is deleting it once, whether or not the
      event names a subgroup. */
  lemma {:induction false} DeleteIdempotent(state: CollectionStore, action: Action, mapping: Registry)
    requires GroupReadable(state, action, mapping)
    ensures GroupReadable(Delete(state, action, mapping), action, mapping)
    ensures Delete(Delete(state, action, mapping), action, mapping) == Delete(state, action, mapping)
  {
    var once := Delete(state, action, mapping);
    if Addressed(action, mapping) {
      var m := action.meta.value;
      var t := KeyOf(m.tag);
      var id := StrOrUndefined(m.itemId);
      var before := GetCollectionByName(state, t, m.subgroup);
      var kept := Without(before.results, id);
      var again := GetCollectionByName(once, t, m.subgroup);
      var w := KeyOf(m.subgroup);
      if m.subgroup.Some? {
        assert again == before.(count := Some(|kept|), results := kept);
        WithoutIdempotent(before.results, id);
      } else {
        assert again == before;
      }
      assert once[t][w := once[t][w]] == once[t];
      assert once[t := once[t]] == once;
    }
  }

  /** Deleting an id no record carries keeps the records and sets the count
      to their number. */
  lemma DeleteMissingIdKeepsResults(state: CollectionStore, action: Action, mapping: Registry)
    requires GroupReadable(state, action, mapping) && Addressed(action, mapping)
    requires var m := action.meta.value;
      var before := GetCollectionByName(state, KeyOf(m.tag), m.subgroup);
      forall i :: 0 <= i < |before.results| ==> IdOf(before.results[i]) != StrOrUndefined(m.itemId)
    ensures var m := action.meta.value;
      var before := GetCollectionByName(state, KeyOf(m.tag), m.subgroup);
      var after := Delete(state, action, mapping)[KeyOf(m.tag)][KeyOf(m.subgroup)];
      after.results == before.results && after.count == Some(|before.results|)
  {
  }

  /** A delete whose event names no subgroup reads slot '' but writes the
      filtered collection under the key "undefined", leaving slot '' as it was. */
  lemma DeleteWithoutSubgroupWritesUndefinedKey(state: CollectionStore, action: Action, mapping: Registry)
    requires GroupReadable(state, action, mapping) && Addressed(action, mapping)
    requires action.meta.value.subgroup.None?
    ensures var t := KeyOf(action.meta.value.tag);
      var r := Delete(state, action, mapping);
      "undefined" in r[t]
      && r[t]["undefined"].results == Without(GetCollectionByName(state, t, Some("")).results,
           StrOrUndefined(action.meta.value.itemId))
      && ("" in state[t] ==> "" in r[t] && r[t][""] == state[t][""])
  {
  }

  /** Deleting one of two records leaves the other, and the count becomes 1. */
  lemma {:induction false} DeleteOneOfTwo(state: CollectionStore, action: Action, mapping: Registry, a: Record, b: Record)
    requires GroupReadable(state, action, mapping) && Addressed(action, mapping)
    requires var m := action.meta.value;
      m.subgroup.Some? && GetCollectionByName(state, KeyOf(m.tag), m.subgroup).results == [a, b]
      && IdOf(a) == StrOrUndefined(m.itemId) && IdOf(b) != IdOf(a)
    ensures var m := action.meta.value;
      var after := Delete(state, action, mapping)[KeyOf(m.tag)][m.subgroup.value];
      after.results == [b] && after.count == Some(1)
  {
    WithoutOneOfTwo(a, b);
  }

  /** Adding grows the slot by exactly one record and keeps the ones before. */
  lemma AddGrowsByOne(state: CollectionStore, action: Action, mapping: Registry)
    requires GroupReadable(state, action, mapping) && Addressed(action, mapping)
    ensures var m := action.meta.value;
      var t := KeyOf(m.tag);
      var slot := OrStr(m.subgroup, "");
      var before := GetCollectionByName(state, t, Some(slot)).results;
      var after := Add(state, action, mapping)[t][slot].results;
      |after| == |before| + 1 && after[..|before|] == before
  {
  }

  /** Every reducer keeps every registered tag's group, so a store built by
      `buildCollectionsStore` stays readable. */
  lemma ReducersKeepGroups(state: CollectionStore, action: Action, mapping: Registry)
    requires Covers(state, mapping)
    ensures Readable(state, action, mapping) ==> Covers(Route(state, action, mapping), mapping)
    ensures Covers(Clear(state, action, mapping), mapping)
  {
  }
}
