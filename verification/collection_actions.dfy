/** The collection action creators: the newest generation's action sets
    (plain, or bound to a subpath), and the older creators that build the
    query string into the url. */
module CollectionActions {
  import opened Wrappers
  import opened Js
  import opened Query
  import opened Events
  import opened Store
  import opened Subpaths
  import Collections
  import LegacyCollections
  import Monolith

  /** `${baseUrl}${type}/`. */
  function TypeUrl(baseUrl: string, t: string): string {
    baseUrl + t + "/"
  }

  /** `addItem(type, data, subgroup?, url?)` of `buildActionSet(overrideUrl?)`. */
  function AddItem(baseUrl: string, overrideUrl: Option<string>, t: string, data: Json,
                   subgroup: Option<string>, url: Option<string>): (r: RequestArgs)
    ensures r.actionSet == AddToCollection && r.verb == POST && r.body == JsonBody(data)
    ensures r.tag == Some(t) && r.meta == NoMeta.(subgroup := BuildSubgroup(overrideUrl, subgroup))
    ensures url.Some? && url.value != "" ==> r.url == url.value
    ensures OrStr(url, "") == "" && overrideUrl.Some? && overrideUrl.value != "" ==> r.url == overrideUrl.value
    ensures OrStr(url, "") == "" && OrStr(overrideUrl, "") == "" ==> r.url == TypeUrl(baseUrl, t)
  {
    RequestArgs(AddToCollection, OrStr(url, OrStr(overrideUrl, TypeUrl(baseUrl, t))), POST,
      JsonBody(data), Some(t), NoMeta.(subgroup := BuildSubgroup(overrideUrl, subgroup)))
  }

  /** `clearCollection(type, subgroup?)`: `{type: CLEAR_COLLECTION, payload: {subgroup, type}}`. */
  function ClearCollection(overrideUrl: Option<string>, t: string, subgroup: Option<string>): (a: Action)
    ensures a.kind == ClearCollectionType && a.fsa && a.meta.None?
    ensures !Nullish(a.payload) && StrAt(a.payload, "type") == Some(t)
    ensures StrAt(a.payload, "subgroup") == BuildSubgroup(overrideUrl, subgroup)
  {
    Action(ClearCollectionType, true, None,
      Obj(map["subgroup" := StrOrUndefined(BuildSubgroup(overrideUrl, subgroup)), "type" := Str(t)]))
  }

  /** `deleteItem(type, id, subgroup?)`. */
  function DeleteItem(baseUrl: string, overrideUrl: Option<string>, t: string, id: string,
                      subgroup: Option<string>): (r: RequestArgs)
    ensures r.actionSet == DeleteFromCollection && r.verb == DELETE && r.body == JsonBody(Undefined)
    ensures r.tag == Some(t)
    ensures r.meta == NoMeta.(subgroup := BuildSubgroup(overrideUrl, subgroup), itemId := Some(id))
    ensures overrideUrl.Some? && overrideUrl.value != "" ==> r.url == overrideUrl.value + id + "/"
    ensures OrStr(overrideUrl, "") == "" ==> r.url == TypeUrl(baseUrl, t) + id + "/"
  {
    var url := if overrideUrl.Some? && overrideUrl.value != "" then overrideUrl.value + id + "/"
               else baseUrl + t + "/" + id + "/";
    RequestArgs(DeleteFromCollection, url, DELETE, JsonBody(Undefined), Some(t),
      NoMeta.(subgroup := BuildSubgroup(overrideUrl, subgroup), itemId := Some(id)))
  }

  /** `getCollection(type, options = {}, subgroup?)`: the options travel as
      the body and the url carries no query string; the paging options are
      copied into the metadata. */
  function GetCollectionRequest(baseUrl: string, overrideUrl: Option<string>, t: string,
                                options: Option<CollectionOptions>, subgroup: Option<string>): (r: RequestArgs)
    ensures var o := options.GetOr(NoOptions);
      r.actionSet == GetCollection && r.verb == GET && r.body == OptionsBody(o) && r.tag == Some(t)
      && r.meta == NoMeta.(subgroup := BuildSubgroup(overrideUrl, subgroup), filters := o.filters,
           ordering := o.ordering, page := o.page, reverseOrdering := o.reverseOrdering,
           shouldAppend := o.shouldAppend)
    ensures r.url == OrStr(overrideUrl, TypeUrl(baseUrl, t))
  {
    var o := options.GetOr(NoOptions);
    RequestArgs(GetCollection, OrStr(overrideUrl, TypeUrl(baseUrl, t)), GET, OptionsBody(o), Some(t),
      NoMeta.(subgroup := BuildSubgroup(overrideUrl, subgroup), filters := o.filters,
        ordering := o.ordering, page := o.page, reverseOrdering := o.reverseOrdering,
        shouldAppend := o.shouldAppend))
  }

  /** `getAllCollection(type, opts?, subgroup?)`: `getCollection` with the
      page size forced to the whole-collection size. */
  function GetAllCollectionRequest(baseUrl: string, overrideUrl: Option<string>, t: string,
                                   opts: Option<CollectionOptions>, subgroup: Option<string>): (r: RequestArgs)
    ensures r.body.OptionsBody? && r.body.options.pageSize == Some(WholeCollectionPageSize)
    ensures r.body.options == opts.GetOr(NoOptions).(pageSize := Some(WholeCollectionPageSize))
    ensures r.meta.page == opts.GetOr(NoOptions).page && r.url == OrStr(overrideUrl, TypeUrl(baseUrl, t))
  {
    GetCollectionRequest(baseUrl, overrideUrl, t,
      Some(opts.GetOr(NoOptions).(pageSize := Some(WholeCollectionPageSize))), subgroup)
  }

  // ---------------------------------------------------------------------
  // Collections at a subpath.

  /** A collection type bound to a subpath: the route template, the base
      url and what the template compiled to. */
  datatype Subpath = Subpath(t: string, baseUrl: string, replaced: string) {
    /** `${baseUrl}${replaced}/`, the url every bound action uses. */
    function OverrideUrl(): (u: string)
      ensures u != "" && u[|u| - 1] == '/'
    {
      baseUrl + replaced + "/"
    }

    /** The slot key for a caller's subgroup, `buildSubgroup(overrideUrl, subgroup)`. */
    function SlotKey(subgroup: Option<string>): (k: string)
      ensures BuildSubgroup(Some(OverrideUrl()), subgroup) == Some(k)
    {
      OverrideUrl() + ":" + OrStr(subgroup, "")
    }
  }

  /** `collectionAtSubpath(type, params)`: the type is a route template whose
      placeholders are filled from `params`; building it fails when a
      placeholder has no value. */
  function CollectionAtSubpath(baseUrl: string, t: string, params: map<string, string>): (sp: Option<Subpath>)
    ensures sp.Some? <==> Filled(t, params)
    ensures Compile(t, params).Some? ==>
      sp.Some? && sp.value.t == t && sp.value.OverrideUrl() == baseUrl + Compile(t, params).value + "/"
  {
    CompileDefinedIff(t, params);
    match Compile(t, params)
    case None => None
    case Some(replaced) => Some(Subpath(t, baseUrl, replaced))
  }

  /** The subpath's `addItem`, bound to its type. */
  function SubpathAddItem(sp: Subpath, data: Json, subgroup: Option<string>, url: Option<string>): (r: RequestArgs)
    ensures r.meta.subgroup == Some(sp.SlotKey(subgroup)) && r.tag == Some(sp.t)
    ensures OrStr(url, "") == "" ==> r.url == sp.OverrideUrl()
  {
    AddItem(sp.baseUrl, Some(sp.OverrideUrl()), sp.t, data, subgroup, url)
  }

  function SubpathClearCollection(sp: Subpath, subgroup: Option<string>): (a: Action)
    ensures !Nullish(a.payload) && StrAt(a.payload, "subgroup") == Some(sp.SlotKey(subgroup))
    ensures StrAt(a.payload, "type") == Some(sp.t)
  {
    ClearCollection(Some(sp.OverrideUrl()), sp.t, subgroup)
  }

  function SubpathDeleteItem(sp: Subpath, id: string, subgroup: Option<string>): (r: RequestArgs)
    ensures r.meta.subgroup == Some(sp.SlotKey(subgroup)) && r.meta.itemId == Some(id)
    ensures r.url == sp.OverrideUrl() + id + "/"
  {
    DeleteItem(sp.baseUrl, Some(sp.OverrideUrl()), sp.t, id, subgroup)
  }

  function SubpathGetCollection(sp: Subpath, options: Option<CollectionOptions>, subgroup: Option<string>): (r: RequestArgs)
    ensures r.meta.subgroup == Some(sp.SlotKey(subgroup)) && r.tag == Some(sp.t)
    ensures r.url == sp.OverrideUrl()
  {
    GetCollectionRequest(sp.baseUrl, Some(sp.OverrideUrl()), sp.t, options, subgroup)
  }

  function SubpathGetAllCollection(sp: Subpath, opts: Option<CollectionOptions>, subgroup: Option<string>): (r: RequestArgs)
    ensures r.meta.subgroup == Some(sp.SlotKey(subgroup))
    ensures r.body.OptionsBody? && r.body.options.pageSize == Some(WholeCollectionPageSize)
  {
    GetAllCollectionRequest(sp.baseUrl, Some(sp.OverrideUrl()), sp.t, opts, subgroup)
  }

  /** `getSubpathCollection(store, subgroup = '')`: the slot named by the
      subpath's namespaced subgroup, or an empty first page. */
  function GetSubpathCollection(sp: Subpath, store: CollectionStore, subgroup: Option<string>): (c: Collection)
    requires sp.t in store
    ensures var key := sp.SlotKey(subgroup);
      c == (if key in store[sp.t] then store[sp.t][key] else EmptyCollection)
  {
    GetCollectionByName(store, sp.t, BuildSubgroup(Some(sp.OverrideUrl()), Some(subgroup.GetOr(""))))
  }

  function GetSubpathCollectionResults(sp: Subpath, store: CollectionStore, subgroup: Option<string>): (rs: seq<Record>)
    requires sp.t in store
    ensures rs == GetSubpathCollection(sp, store, subgroup).results
  {
    GetCollectionResultsByName(store, sp.t, BuildSubgroup(Some(sp.OverrideUrl()), Some(subgroup.GetOr(""))))
  }

  /** The plain action set (no subpath) passes the caller's subgroup through. */
  lemma PlainActionsKeepSubgroup(baseUrl: string, t: string, data: Json, id: string, subgroup: Option<string>)
    ensures AddItem(baseUrl, None, t, data, subgroup, None).meta.subgroup == subgroup
    ensures DeleteItem(baseUrl, None, t, id, subgroup).meta.subgroup == subgroup
    ensures GetCollectionRequest(baseUrl, None, t, None, subgroup).meta.subgroup == subgroup
    ensures StrAt(ClearCollection(None, t, subgroup).payload, "subgroup") == subgroup
    ensures AddItem(baseUrl, None, t, data, subgroup, None).url == TypeUrl(baseUrl, t)
    ensures DeleteItem(baseUrl, None, t, id, subgroup).url == TypeUrl(baseUrl, t) + id + "/"
  {
  }

  /** A page fetched through a subpath lands in the slot the subpath getter
      reads, for every caller subgroup, absent included. */
  lemma {:induction false} SubpathFetchLandsWhereGetterReads(
    sp: Subpath, options: Option<CollectionOptions>, subgroup: Option<string>,
    state: CollectionStore, action: Action, mapping: Registry)
    requires sp.t in mapping && sp.t in state
    requires action.fsa && action.meta.Some? && action.meta.value.tag == Some(sp.t)
    requires action.meta.value.subgroup == SubpathGetCollection(sp, options, subgroup).meta.subgroup
    requires Collections.ResponseReadable(action.payload)
    ensures Collections.FetchReadable(state, action, mapping)
    ensures var r := Collections.Fetch(state, action, mapping);
      sp.t in r && GetSubpathCollection(sp, r, subgroup) == r[sp.t][sp.SlotKey(subgroup)]
  {
    var key := sp.SlotKey(subgroup);
    assert KeyOf(Some(sp.t)) == sp.t;
    assert OrStr(Some(key), "") == key;
    assert Collections.Addressed(action, mapping);
  }

  /** Two different subpaths of one type keep their pages apart. */
  lemma SubpathsDoNotShareSlots(sp1: Subpath, sp2: Subpath, subgroup: Option<string>)
    requires sp1.OverrideUrl() != sp2.OverrideUrl()
    ensures sp1.SlotKey(subgroup) != sp2.SlotKey(subgroup)
  {
    DistinctPrefixesDistinctKeys(sp1.OverrideUrl(), sp2.OverrideUrl(), subgroup);
  }

  /** A route `base/:id` at a given id compiles to that id's url. */
  lemma SubpathUrlForOneParameter(baseUrl: string, pre: string, name: string, params: map<string, string>)
    requires ':' !in pre && name in params && params[name] != ""
    requires |name| > 0 && forall i :: 0 <= i < |name| ==> IsWordChar(name[i])
    ensures var sp := CollectionAtSubpath(baseUrl, pre + ":" + name, params);
      sp.Some? && sp.value.OverrideUrl() == baseUrl + pre + params[name] + "/"
  {
    CompileOnePlaceholder(pre, name, "", params);
    assert pre + ":" + name + "" == pre + ":" + name;
    assert pre + params[name] + "" == pre + params[name];
  }

  // ---------------------------------------------------------------------
  // The older action creators (src/collections/index.ts, repeated in
  // src/collections.ts), which name slots by `collectionName`.

  const LegacyBaseUrl := "/api/"

  function LegacyAddItem(t: string, data: Json, collectionName: Option<string>, url: Option<string>): (r: RequestArgs)
    ensures r.actionSet == AddToCollection && r.verb == POST && r.body == JsonBody(data) && r.tag == Some(t)
    ensures r.url == OrStr(url, TypeUrl(LegacyBaseUrl, t))
    ensures r.meta == NoMeta.(collectionName := collectionName)
  {
    RequestArgs(AddToCollection, OrStr(url, TypeUrl(LegacyBaseUrl, t)), POST, JsonBody(data), Some(t),
      NoMeta.(collectionName := collectionName))
  }

  /** `{type: CLEAR_COLLECTION, payload: {collectionName, type}}`. */
  function LegacyClearCollection(t: string, collectionName: Option<string>): (a: Action)
    ensures a.kind == ClearCollectionType && a.fsa && a.meta.None?
    ensures !Nullish(a.payload) && StrAt(a.payload, "type") == Some(t)
    ensures StrAt(a.payload, "collectionName") == collectionName
    ensures StrAt(a.payload, "subgroup").None?
  {
    Action(ClearCollectionType, true, None,
      Obj(map["collectionName" := StrOrUndefined(collectionName), "type" := Str(t)]))
  }

  function LegacyDeleteItem(t: string, id: string, collectionName: Option<string>): (r: RequestArgs)
    ensures r.actionSet == DeleteFromCollection && r.verb == DELETE && r.body == JsonBody(Null)
    ensures r.url == TypeUrl(LegacyBaseUrl, t) + id + "/" && r.tag == Some(t)
    ensures r.meta == NoMeta.(collectionName := collectionName, itemId := Some(id))
  {
    RequestArgs(DeleteFromCollection, LegacyBaseUrl + t + "/" + id + "/", DELETE, JsonBody(Null), Some(t),
      NoMeta.(collectionName := collectionName, itemId := Some(id)))
  }

  /** `getCollection(type, options = {}, collectionName?)`: the query string
      goes into the url and the paging options into the metadata. */
  function LegacyGetCollection(t: string, options: Option<CollectionOptions>, collectionName: Option<string>): (r: RequestArgs)
    ensures r.actionSet == GetCollection && r.verb == GET && r.body == JsonBody(Null) && r.tag == Some(t)
    ensures r.url == TypeUrl(LegacyBaseUrl, t) + FormatCollectionQueryParams(options)
    ensures var o := options.GetOr(NoOptions);
      r.meta == NoMeta.(collectionName := collectionName, filters := o.filters, ordering := o.ordering,
        page := o.page, reverseOrdering := o.reverseOrdering, shouldAppend := o.shouldAppend)
  {
    var o := options.GetOr(NoOptions);
    RequestArgs(GetCollection, TypeUrl(LegacyBaseUrl, t) + FormatCollectionQueryParams(options), GET,
      JsonBody(Null), Some(t),
      NoMeta.(collectionName := collectionName, filters := o.filters, ordering := o.ordering,
        page := o.page, reverseOrdering := o.reverseOrdering, shouldAppend := o.shouldAppend))
  }

  function LegacyGetAllCollection(t: string, opts: Option<CollectionOptions>, collectionName: Option<string>): (r: RequestArgs)
    ensures r.url == TypeUrl(LegacyBaseUrl, t)
      + FormatCollectionQueryParams(Some(opts.GetOr(NoOptions).(pageSize := Some(WholeCollectionPageSize))))
  {
    LegacyGetCollection(t, Some(opts.GetOr(NoOptions).(pageSize := Some(WholeCollectionPageSize))), collectionName)
  }

  /** With no options the older `getCollection` asks for the first page of
      twelve: `/api/type/?page=1&page_size=12`. */
  lemma LegacyDefaultCollectionUrl(t: string)
    ensures LegacyGetCollection(t, None, None).url == TypeUrl(LegacyBaseUrl, t) + "?page=1&page_size=12"
  {
    DefaultCollectionQuery();
  }

  /** The older creators name slots by `collectionName` while the middle
      generation's fetch reads `subgroup`: whatever collection name was asked
      for, the page lands in the key "undefined". */
  lemma LegacyGetMissesLegacyFetch(
    t: string, options: Option<CollectionOptions>, name: Option<string>,
    state: CollectionStore, action: Action, mapping: Registry)
    requires action.fsa && action.meta == Some(LegacyGetCollection(t, options, name).meta.(tag := Some(t)))
    requires t in mapping && t in state && LegacyCollections.BodyReadable(action.payload)
    ensures LegacyCollections.FetchReadable(state, action, mapping)
    ensures "undefined" in LegacyCollections.Fetch(state, action, mapping)[t]
  {
    assert action.meta.value.subgroup.None?;
    assert Collections.Addressed(action, mapping);
  }

  /** Likewise the older clear event carries no `subgroup`, so the middle
      generation's clear empties the key "undefined". */
  lemma LegacyClearMissesLegacyClear(t: string, name: Option<string>, state: CollectionStore, mapping: Registry)
    requires t in mapping
    ensures Collections.ClearAddressed(LegacyClearCollection(t, name), mapping)
    ensures var r := LegacyCollections.Clear(state, LegacyClearCollection(t, name), mapping);
      t in r && "undefined" in r[t] && r[t]["undefined"] == EmptyCollection
  {
  }

  /** In the monolith the same creators and reducers agree: a fetch lands in
      the slot named by the collection name. */
  lemma MonolithCreatorsMatchReducers(
    t: string, options: Option<CollectionOptions>, name: string,
    state: Monolith.MonolithStore, action: Action, mapping: Registry)
    requires action.fsa && action.meta == Some(LegacyGetCollection(t, options, Some(name)).meta.(tag := Some(t)))
    requires t in mapping && t in state && state[t].Group? && LegacyCollections.BodyReadable(action.payload)
    ensures Monolith.FetchReadable(state, action, mapping)
    ensures name in Monolith.Fetch(state, action, mapping)[t].slots
  {
  }
}
