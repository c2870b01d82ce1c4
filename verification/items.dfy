/** The single-item cache: one optional record per type and subgroup, set by
    a successful load, replaced by a successful update when the ids agree,
    and emptied by a clear event. */
module Items {
  import opened Wrappers
  import opened Js
  import opened Events
  import opened Store
  import Collections

  /** The items of one type, by subgroup; a cleared slot holds no record. */
  type ItemGroup = map<string, Option<Record>>
  type ItemStore = map<string, ItemGroup>

  /** `buildItemStore(mapping)`: an empty group per registered type. */
  function BuildItemStore(mapping: Registry): (s: ItemStore)
    ensures s.Keys == mapping.Keys
    ensures forall t :: t in s ==> s[t] == map[]
  {
    map t | t in mapping :: map[]
  }

  /** The item the update guard compares against: slot `slot` of type `key`,
      no record when the type or the slot is missing. */
  function ItemAt(store: ItemStore, key: string, slot: string): (item: Option<Record>)
    ensures key in store && slot in store[key] ==> item == store[key][slot]
    ensures !(key in store && slot in store[key]) ==> item.None?
  {
    if key in store && slot in store[key] then store[key][slot] else None
  }

  /** The group of a type as `_.extend` sees it: a missing group is empty. */
  function GroupOf(store: ItemStore, key: string): (g: ItemGroup)
    ensures key in store ==> g == store[key]
    ensures key !in store ==> g == map[]
  {
    if key in store then store[key] else map[]
  }

  /** `clearItem(state, action, mapping)`: slot `payload.subgroup || ''` of
      `payload.type` no longer holds a record. */
  function ClearItem(state: ItemStore, action: Action, mapping: Registry): (r: ItemStore)
    ensures !Collections.ClearAddressed(action, mapping) ==> r == state
    ensures Collections.ClearAddressed(action, mapping) ==>
      var t := KeyOf(StrAt(action.payload, "type"));
      var slot := OrStr(StrAt(action.payload, "subgroup"), "");
      r.Keys == state.Keys + {t}
      && (forall u :: u in state && u != t ==> r[u] == state[u])
      && r[t].Keys == GroupOf(state, t).Keys + {slot}
      && (forall k :: k in GroupOf(state, t) && k != slot ==> r[t][k] == GroupOf(state, t)[k])
      && r[t][slot].None?
  {
    if Collections.ClearAddressed(action, mapping) then
      var t := KeyOf(StrAt(action.payload, "type"));
      state[t := GroupOf(state, t)[OrStr(StrAt(action.payload, "subgroup"), "") := None]]
    else state
  }

  /** `isItemAction(action)` and a registered tag. */
  predicate SetAddressed(action: Action, mapping: Registry) {
    action.fsa && action.meta.Some? && KeyOf(action.meta.value.tag) in mapping
  }

  /** `payload.data` is read without a guard. */
  predicate SetReadable(action: Action, mapping: Registry) {
    SetAddressed(action, mapping) ==> !Nullish(action.payload)
  }

  /** `setItemFromResponseAction(state, action, mapping)`: slot
      `meta.subgroup || ''` of the tagged type holds the record built from
      `payload.data`. */
  function SetItem(state: ItemStore, action: Action, mapping: Registry): (r: ItemStore)
    requires SetReadable(action, mapping)
    ensures !SetAddressed(action, mapping) ==> r == state
    ensures SetAddressed(action, mapping) ==>
      var t := KeyOf(action.meta.value.tag);
      var slot := OrStr(action.meta.value.subgroup, "");
      r.Keys == state.Keys + {t}
      && (forall u :: u in state && u != t ==> r[u] == state[u])
      && r[t].Keys == GroupOf(state, t).Keys + {slot}
      && (forall k :: k in GroupOf(state, t) && k != slot ==> r[t][k] == GroupOf(state, t)[k])
      && r[t][slot] == Some(mapping[t](Get(action.payload, "data")))
  {
    if SetAddressed(action, mapping) then
      var t := KeyOf(action.meta.value.tag);
      var slot := OrStr(action.meta.value.subgroup, "");
      state[t := GroupOf(state, t)[slot := Some(mapping[t](Get(action.payload, "data")))]]
    else state
  }

  /** The update branch reads `meta.tag` without a guard, and `payload.id`
      when a stored item is compared, and `payload.data` when it sets. */
  predicate UpdateReadable(state: ItemStore, action: Action, mapping: Registry) {
    action.meta.Some?
    && (KeyOf(action.meta.value.tag) in mapping
        && (action.fsa || ItemAt(state, KeyOf(action.meta.value.tag), OrStr(action.meta.value.subgroup, "")).Some?)
        ==> !Nullish(action.payload))
  }

  /** The guard `!item || item.id === action.payload.id`. */
  predicate UpdateAccepted(state: ItemStore, action: Action, mapping: Registry)
    requires UpdateReadable(state, action, mapping)
  {
    var t := KeyOf(action.meta.value.tag);
    var item := ItemAt(state, t, OrStr(action.meta.value.subgroup, ""));
    t in mapping && (item.None? || IdOf(item.value) == Get(action.payload, "id"))
  }

  /** The `UPDATE_ITEM.SUCCESS` branch of `itemsReducer`: the response
      replaces the stored item only when the slot is empty or holds an item
      with the response's id. */
  function Update(state: ItemStore, action: Action, mapping: Registry): (r: ItemStore)
    requires UpdateReadable(state, action, mapping)
    ensures UpdateAccepted(state, action, mapping) ==> SetReadable(action, mapping) && r == SetItem(state, action, mapping)
    ensures !UpdateAccepted(state, action, mapping) ==> r == state
  {
    if UpdateAccepted(state, action, mapping) then SetItem(state, action, mapping) else state
  }

  predicate Readable(state: ItemStore, action: Action, mapping: Registry) {
    if action.kind == GetItem.success then SetReadable(action, mapping)
    else if action.kind == UpdateItem.success then UpdateReadable(state, action, mapping)
    else true
  }

  /** `itemsReducer(state = buildItemStore(mapping), action)`. */
  function ItemsReducer(state: Option<ItemStore>, action: Action, mapping: Registry): (r: ItemStore)
    requires Readable(state.GetOr(BuildItemStore(mapping)), action, mapping)
    ensures var s := state.GetOr(BuildItemStore(mapping));
      (action.kind == ClearItemType ==> r == ClearItem(s, action, mapping))
      && (action.kind == GetItem.success ==> r == SetItem(s, action, mapping))
      && (action.kind == UpdateItem.success ==> r == Update(s, action, mapping))
    ensures (action.kind !in {ClearItemType, GetItem.success, UpdateItem.success}) ==>
      r == state.GetOr(BuildItemStore(mapping))
  {
    var s := state.GetOr(BuildItemStore(mapping));
    ItemTypesDistinct();
    if action.kind == ClearItemType then ClearItem(s, action, mapping)
    else if action.kind == GetItem.success then SetItem(s, action, mapping)
    else if action.kind == UpdateItem.success then Update(s, action, mapping)
    else s
  }

  /** The three event types the item reducer routes are pairwise different. */
  lemma ItemTypesDistinct()
    ensures GetItem.success != UpdateItem.success
    ensures ClearItemType != GetItem.success && ClearItemType != UpdateItem.success
  {
    ActionSetsDisjoint("GET_ITEM", "UPDATE_ITEM");
    assert |ClearItemType| == 10;
    assert |GetItem.success| == 16;
    assert |UpdateItem.success| == 19;
  }

  // ---------------------------------------------------------------------
  // The item action creators.

  /** `/api/${type}/${id}/`. */
  function ItemUrl(t: string, id: string): string {
    "/api/" + t + "/" + id + "/"
  }

  /** `getItem(type, id, subgroup?)`. */
  function GetItemRequest(t: string, id: string, subgroup: Option<string>): (r: RequestArgs)
    ensures r.actionSet == GetItem && r.verb == GET && r.body == JsonBody(Null)
    ensures r.url == ItemUrl(t, id) && r.tag == Some(t)
    ensures r.meta == NoMeta.(itemId := Some(id), subgroup := subgroup)
  {
    RequestArgs(GetItem, ItemUrl(t, id), GET, JsonBody(Null), Some(t), NoMeta.(itemId := Some(id), subgroup := subgroup))
  }

  /** `_updateItem(type, url, method, id, data, subgroup?)`: every update
      creator dispatches `UPDATE_ITEM` with the id and subgroup as metadata. */
  function UpdateRequest(t: string, url: string, verb: HttpMethod, id: string, data: Json, subgroup: Option<string>): (r: RequestArgs)
    ensures r.actionSet == UpdateItem && r.verb == verb && r.body == JsonBody(data) && r.url == url
    ensures r.tag == Some(t) && r.meta == NoMeta.(itemId := Some(id), subgroup := subgroup)
  {
    RequestArgs(UpdateItem, url, verb, JsonBody(data), Some(t), NoMeta.(itemId := Some(id), subgroup := subgroup))
  }

  /** `updateItem(type, id, data, subgroup?)`: a PUT to the item's url. */
  function UpdateItemRequest(t: string, id: string, data: Json, subgroup: Option<string>): (r: RequestArgs)
    ensures r.actionSet == UpdateItem && r.verb == PUT && r.url == "/api/" + t + "/" + id + "/" && r.body == JsonBody(data)
    ensures r.tag == Some(t) && r.meta.itemId == Some(id) && r.meta.subgroup == subgroup
  {
    UpdateRequest(t, ItemUrl(t, id), PUT, id, data, subgroup)
  }

  /** `patchItem(type, id, data, subgroup?)`: a PATCH to the item's url. */
  function PatchItemRequest(t: string, id: string, data: Json, subgroup: Option<string>): (r: RequestArgs)
    ensures r.actionSet == UpdateItem && r.verb == PATCH && r.url == "/api/" + t + "/" + id + "/" && r.body == JsonBody(data)
    ensures r.tag == Some(t) && r.meta.itemId == Some(id) && r.meta.subgroup == subgroup
  {
    UpdateRequest(t, ItemUrl(t, id), PATCH, id, data, subgroup)
  }

  /** `actionItem(type, id, action, data, subgroup?)`: a POST to
      `/api/${type}/${id}/${action}/`. */
  function ActionItemRequest(t: string, id: string, act: string, data: Json, subgroup: Option<string>): (r: RequestArgs)
    ensures r.actionSet == UpdateItem && r.verb == POST && r.url == "/api/" + t + "/" + id + "/" + act + "/" && r.body == JsonBody(data)
    ensures r.tag == Some(t) && r.meta.itemId == Some(id) && r.meta.subgroup == subgroup
  {
    UpdateRequest(t, ItemUrl(t, id) + act + "/", POST, id, data, subgroup)
  }

  /** `clearItem(type, subgroup?)`: `{type: CLEAR_ITEM, payload: {subgroup, type}}`. */
  function ClearItemAction(t: string, subgroup: Option<string>): (a: Action)
    ensures a.kind == ClearItemType && a.fsa && a.meta.None? && !Nullish(a.payload)
    ensures StrAt(a.payload, "type") == Some(t) && StrAt(a.payload, "subgroup") == subgroup
  {
    Action(ClearItemType, true, None, Obj(map["subgroup" := StrOrUndefined(subgroup), "type" := Str(t)]))
  }

  // ---------------------------------------------------------------------
  // Properties relating several events.

  /** A fresh store holds no item in any slot. */
  lemma FreshStoreHasNoItems(mapping: Registry, key: string, slot: string)
    ensures ItemAt(BuildItemStore(mapping), key, slot).None?
  {
  }

  /** Clearing twice is clearing once. */
  lemma ClearItemIdempotent(state: ItemStore, action: Action, mapping: Registry)
    ensures ClearItem(ClearItem(state, action, mapping), action, mapping) == ClearItem(state, action, mapping)
  {
    var once := ClearItem(state, action, mapping);
    if Collections.ClearAddressed(action, mapping) {
      var t := KeyOf(StrAt(action.payload, "type"));
      var slot := OrStr(StrAt(action.payload, "subgroup"), "");
      assert GroupOf(once, t)[slot := None] == once[t];
      assert once[t := once[t]] == once;
    }
  }

  /** Loading the same response twice is loading it once. */
  lemma SetItemIdempotent(state: ItemStore, action: Action, mapping: Registry)
    requires SetReadable(action, mapping)
    ensures SetItem(SetItem(state, action, mapping), action, mapping) == SetItem(state, action, mapping)
  {
    var once := SetItem(state, action, mapping);
    if SetAddressed(action, mapping) {
      var t := KeyOf(action.meta.value.tag);
      var slot := OrStr(action.meta.value.subgroup, "");
      assert GroupOf(once, t)[slot := once[t][slot]] == once[t];
      assert once[t := once[t]] == once;
    }
  }

  /** A loaded item is read back from the slot its event named. */
  lemma LoadedItemIsRead(state: ItemStore, action: Action, mapping: Registry)
    requires SetReadable(action, mapping) && SetAddressed(action, mapping)
    ensures var t := KeyOf(action.meta.value.tag);
      ItemAt(SetItem(state, action, mapping), t, OrStr(action.meta.value.subgroup, ""))
        == Some(mapping[t](Get(action.payload, "data")))
  {
  }

  /** An update lands when the slot is empty, or when the stored item's id
      is the response's `id`; otherwise the state is kept. */
  lemma UpdateGuard(state: ItemStore, action: Action, mapping: Registry)
    requires UpdateReadable(state, action, mapping) && action.fsa
    requires KeyOf(action.meta.value.tag) in mapping
    ensures var t := KeyOf(action.meta.value.tag);
      var item := ItemAt(state, t, OrStr(action.meta.value.subgroup, ""));
      (item.None? ==> Update(state, action, mapping) == SetItem(state, action, mapping))
      && (item.Some? && IdOf(item.value) == Get(action.payload, "id") ==>
            Update(state, action, mapping) == SetItem(state, action, mapping))
      && (item.Some? && IdOf(item.value) != Get(action.payload, "id") ==>
            Update(state, action, mapping) == state)
  {
  }

  /** The guard compares the stored item's id with `payload.id`, but the
      record is built from `payload.data`: a response shaped
      `{data: {...}}` carries no top-level `id`, so it never replaces an
      item that has one. */
  lemma WrappedUpdateIgnored(state: ItemStore, action: Action, mapping: Registry, data: Record)
    requires action.kind == UpdateItem.success && action.fsa && action.meta.Some?
    requires action.payload == Obj(map["data" := Obj(data)])
    requires var item := ItemAt(state, KeyOf(action.meta.value.tag), OrStr(action.meta.value.subgroup, ""));
      item.Some? && "id" in item.value && !item.value["id"].Undefined?
    ensures Readable(state, action, mapping)
    ensures ItemsReducer(Some(state), action, mapping) == state
  {
  }

  /** The events of the item creators and the reducer agree on slots: an
      update dispatched with a subgroup is applied to an empty slot, read
      back there, and a clear for the same subgroup empties that slot. */
  lemma {:induction false} CreatorsShareSlots(
    state: ItemStore, t: string, id: string, data: Json, subgroup: Option<string>,
    payload: Json, mapping: Registry)
    requires t in mapping && !Nullish(payload)
    requires ItemAt(state, t, OrStr(subgroup, "")).None?
    ensures var req := UpdateItemRequest(t, id, data, subgroup);
      var success := Action(UpdateItem.success, true, Some(req.meta.(tag := req.tag)), payload);
      Readable(state, success, mapping)
      && var loaded := ItemsReducer(Some(state), success, mapping);
      ItemAt(loaded, t, OrStr(subgroup, "")) == Some(mapping[t](Get(payload, "data")))
      && ItemAt(ItemsReducer(Some(loaded), ClearItemAction(t, subgroup), mapping), t, OrStr(subgroup, "")).None?
  {
    var req := UpdateItemRequest(t, id, data, subgroup);
    var success := Action(UpdateItem.success, true, Some(req.meta.(tag := req.tag)), payload);
    ItemTypesDistinct();
    assert KeyOf(Some(t)) == t;
    assert UpdateAccepted(state, success, mapping);
    var loaded := ItemsReducer(Some(state), success, mapping);
    assert loaded == SetItem(state, success, mapping);
    var clear := ClearItemAction(t, subgroup);
    assert Collections.ClearAddressed(clear, mapping);
  }
}
