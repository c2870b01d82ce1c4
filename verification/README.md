# redux-api-collections: the state-transition core in Dafny

This project models the pure layer of redux-api-collections. That library is
a client-side, normalised cache for paginated API collections and single
items. The model covers:

- **Collection reducers**, in all three generations found in the repository.
  The store maps a type tag to a group of slots (subgroups), and each slot
  holds one paginated collection. The reducers handle fetch success (replace
  or append), add, delete by id and clear.
  - The newest generation is `src/ts/collections`, modelled in module `Collections`.
  - The middle generation is `src/collections`, modelled in `LegacyCollections`.
  - The single-file generation is `src/collections.ts`, modelled in `Monolith`.
    Its slots are named by `collectionName`, and an add replaces the whole group.
- **Store accessors.** `buildCollectionsStore`, `getCollectionByName` and
  `getCollectionResultsByName` are in `Store`.
- **Item reducers.** `clearItem`, `setItemFromResponseAction` and the
  `itemsReducer` update guard are in `Items`, together with the item action
  creators. `Items.ClearItem` and `Items.SetItem` model both src/items/reducers.ts
  and the newest src/ts/items/reducers.ts. The two files differ only in that the
  newest one inlines `isItemAction` and adds type casts.
- **Subgroup namespacing and route templates.** `buildSubgroup` and `:name`
  substitution are in `Subpaths`.
- **Collection action creators.** `CollectionActions` holds the action sets of
  the newest generation, plain or bound to a subpath with `collectionAtSubpath`,
  and the older creators that build the query string into the url.
- **Query strings.** `formatQueryParams` and `formatCollectionQueryParams` are
  in `Query`. Parameters are an ordered association list with object-spread
  assignment. A reference parser reads a query string back.
- **Request status.** `RequestStatus` holds the status events, `responsesReducer`,
  and the selectors `getResponse`, `isPending`, `hasFailed`, `hasSucceded`,
  `anyPending` and `getErrorData`.
- **The request dispatcher.** `Dispatcher` models `dispatchGenericRequest` as a
  function. It takes the transport's outcome, as a parameter, and returns the
  events dispatched in order together with how the promise settles. Both
  generations are covered: the newest one, and the single file whose status
  event names the phase `state`.

JavaScript values that reach the reducers are represented by a `Json` datatype
in module `Js`. That module also holds helpers for `||` defaulting, truthiness
and computed keys. `obj[undefined]` writes the key `"undefined"`, and several
reducers depend on that.

Property reads that throw in the source are stated as preconditions, the
`…Readable` predicates. These are reads on `null` or `undefined`, such as
`payload.data` or `state[type][…]` on an unknown type. Every other input,
including malformed or unregistered events, is handled by the functions
exactly as the source handles it.

## Model

| member | source | states |
|---|---|---|
| Events.MakeAsyncActionSet | src/requests/utils.ts:14-20 | The three types are `name` followed by `_FAILURE`, `_REQUEST` and `_SUCCESS`, and they are pairwise different. |
| Events.ActionSetsDisjoint | src/requests/utils.ts:14-20 | The action sets of two different names share no event type. So every event type belongs to exactly one request. |
| Query.Assign | src/collections/utils.ts:26-32 | Object-spread assignment keeps every other pair where it was, and the assigned pair is present. A key not yet present is appended last. |
| Query.AssignInPlace | src/collections/utils.ts:26-32 | Assigning to a key that is already present overwrites its first occurrence in place, so the key order does not change. |
| Query.Kept | src/requests/utils.ts:27-30 | No surviving pair has a `null` or `undefined` value. Nothing survives exactly when every value is `null` or `undefined`. |
| Query.FormatQueryParams | src/requests/utils.ts:22-39 | The result is "" exactly when the params are absent or every value is `null`/`undefined`. Otherwise it starts with '?'. |
| Query.FormatQueryParamsRoundTrip | src/requests/utils.ts:27-38 | The reference parser reads back exactly the surviving pairs, in insertion order, each with its rendered value. This holds when keys carry no '&' or '=' and values carry no '&'. |
| Query.FormatCollectionQueryParams | src/collections/utils.ts:16-33 | The collection query string is never empty and always starts with '?'. |
| Query.OrderingAndSearchEntries | src/collections/utils.ts:28-31 | The ordering entry is `-x` when reversed and `x` otherwise, and is dropped exactly when no ordering is given. The search entry is `search`, falling back to `filters.search`, and is dropped only when both are missing. |
| Query.CollectionParamsLayout | src/collections/utils.ts:19-32 | The object handed to the formatter is the filters in order, followed by `ordering`, `page` (default 1), `page_size` (default 12) and `search`. |
| Query.CollectionParamsHavePage | src/collections/utils.ts:19-30 | Whatever the filters hold, the object carries the numeric page, either the given one or 1. |
| Query.CollectionQueryRoundTrip | src/collections/utils.ts:16-33 | Parsing the collection query string gives the filters first, then ordering, page, page_size and search, leaving out the dropped entries. |
| Query.DefaultCollectionQuery | src/collections/utils.ts:16-33 | With no options the query string is exactly `?page=1&page_size=12`. |
| Store.BuildCollectionsStore | src/collections/utils.ts:35-41 | The store has exactly the registered tags, and each one holds an empty group. |
| Store.GetCollectionByName | src/collections/utils.ts:43-50 | Returns the slot named by `subgroup` (absent meaning ''), or the empty first page `{page: 1, count: 0, results: []}` when that slot is not filled. |
| Store.GetCollectionResultsByName | src/collections/utils.ts:52-58 | Returns the results of that same slot, or no records when the slot is not filled. |
| Store.FreshStoreIsEmpty | src/collections/utils.ts:35-58 | A fresh store answers every slot of every registered type with the empty first page and no results. |
| Subpaths.BuildSubgroup | src/ts/utils.ts:16-24 | With a truthy prefix the key is `prefix:subgroup`, where an absent subgroup counts as "". Otherwise the subgroup passes through unchanged, including when it is absent. |
| Subpaths.AbsentSubgroupIsEmpty | src/ts/utils.ts:20-22 | Under a prefix, an absent subgroup and the empty subgroup give the same key, `prefix:`. |
| Subpaths.NamespacedKeyStartsWithPrefix | src/ts/utils.ts:20-22 | A namespaced key begins with the prefix followed by ':'. |
| Subpaths.DistinctPrefixesDistinctKeys | src/ts/utils.ts:20-22 | For the same caller subgroup, two different prefixes never give the same key. |
| Subpaths.SamePrefixDistinctSubgroups | src/ts/utils.ts:20-22 | Under one prefix, two different subgroups never give the same key. |
| Subpaths.PlainSubgroupNeverNamespaced | src/ts/utils.ts:16-24 | A subgroup without ':' used with no prefix never equals any namespaced key. |
| Subpaths.Compile | src/ts/collections/index.ts:194-196 | A route with no ':' compiles to itself. Its other behaviour is fixed by the lemmas below. |
| Subpaths.CompileDefinedIff | src/ts/collections/index.ts:194-195 | A route compiles exactly when every placeholder in it has a non-empty value. Otherwise the compiled route throws. |
| Subpaths.CompilePlaceholderStep | src/ts/collections/index.ts:194-195 | `:name` followed by a non-word character or the end takes the value of `name`, and the rest of the route is compiled after it. It fails when the value is missing or empty. `name` joins the placeholders of the rest. |
| Subpaths.CompileTwoPlaceholders | src/ts/collections/index.ts:194-195 | A route with two placeholders has both values substituted in place, with the literal text around them kept. |
| Subpaths.CompileLiteralPrefix | src/ts/collections/index.ts:194-196 | A literal stretch without ':' is copied through ahead of whatever the rest of the route compiles to, or the whole compile fails. |
| Subpaths.CompileOnePlaceholder | src/ts/collections/index.ts:194-196 | A route with one placeholder compiles to the route with its value in place of `:name`. It fails when the parameter has no value or an empty one. |
| Collections.Without | src/ts/collections/reducers.ts:134-137 | A record is kept exactly when its id differs from the deleted id, and there are never more records than before. When no record carries that id, the sequence is unchanged. Order and multiplicity are fixed by the two lemmas below. |
| Collections.WithoutAppend | src/ts/collections/reducers.ts:134-137 | The filter works record by record. Filtering a concatenation filters each part and keeps them in order. |
| Collections.WithoutSingle | src/ts/collections/reducers.ts:134-137 | A single record is kept exactly when its id differs from the deleted id. |
| Collections.WithoutOneOfTwo | src/ts/collections/reducers.ts:134-137 | Deleting the first of two records with different ids leaves exactly the second. |
| Collections.WithoutIdempotent | src/ts/collections/reducers.ts:134-137 | Filtering out the same id twice removes nothing more. |
| Collections.Fetched | src/ts/collections/reducers.ts:19-54 | Covers the updated collection. The results are the old slot's results followed by the built new ones when appending, and only the new ones otherwise. The count is the server count when truthy, otherwise the number of results. The page is `meta.page`, then the payload page, then 1. Ordering, reverse ordering and filters come from the metadata, and `next` from the response. |
| Collections.Fetch | src/ts/collections/reducers.ts:56-78 | For a well-formed event naming a registered tag, only slot `subgroup \|\| ''` of that tag is written. Every other slot and every other tag is kept. Any other event leaves the state unchanged. |
| Collections.Add | src/ts/collections/reducers.ts:80-115 | The built record goes after the slot's records, or after the empty first page when the slot is unfilled. The count rises by one, every other field is kept, and nothing else changes. |
| Collections.Delete | src/ts/collections/reducers.ts:117-152 | The slot's results become the filter of the old results by the deleted id, in order, and the count becomes their number. The slot is read at `subgroup` (absent meaning '') but written at `[subgroup]`. Nothing else changes. |
| Collections.Clear | src/ts/collections/reducers.ts:154-179 | Slot `payload.subgroup \|\| ''` of `payload.type` becomes the empty first page, and nothing else changes. An event without an FSA shape, a truthy payload or a registered type is ignored. |
| Collections.Route | src/ts/collections/index.ts:153-186 | The four routed event types go to fetch, add, delete and clear. Every other event type returns the state unchanged. |
| Collections.CollectionsReducer | src/ts/collections/index.ts:149-191 | Starts from the fresh store when there is no state. The plugin, when configured, is applied to the built-in result for every event. |
| Collections.RoutedTypesDistinct | src/collections/actions.ts:3-8 | The four routed event types are pairwise different, so the routing is unambiguous. |
| Collections.UnroutedEventIgnored | src/ts/collections/index.ts:183-186 | Without a plugin, any other event type leaves the state as it was. |
| Collections.FetchReplaceIdempotent | src/ts/collections/reducers.ts:33-53 | Applying the same replacing fetch twice equals applying it once. |
| Collections.FetchAppendTwice | src/ts/collections/reducers.ts:33-38 | Two appending fetches of the same page leave the old results followed by the page's records twice. |
| Collections.ClearIdempotent | src/ts/collections/reducers.ts:159-178 | Clearing twice equals clearing once. |
| Collections.DeleteIdempotent | src/ts/collections/reducers.ts:117-152 | Deleting the same id twice equals deleting it once, with or without a subgroup. |
| Collections.DeleteMissingIdKeepsResults | src/ts/collections/reducers.ts:134-141 | Deleting an id no record carries keeps the results and sets the count to their number. |
| Collections.DeleteWithoutSubgroupWritesUndefinedKey | src/ts/collections/reducers.ts:125-147 | A delete with no subgroup filters slot '' but writes the key "undefined", so slot '' is left as it was. |
| Collections.DeleteOneOfTwo | src/ts/collections/reducers.ts:134-146 | Deleting one of two records in a named subgroup leaves the other, and the count becomes 1. |
| Collections.AddGrowsByOne | src/ts/collections/reducers.ts:94-111 | The slot grows by exactly one record, and the earlier records stay in front. |
| Collections.ReducersKeepGroups | src/ts/collections/reducers.ts:68-74 | Every reducer keeps a group for every registered tag, so a store built from the mapping stays readable. |
| LegacyCollections.Fetched | src/collections/reducers.ts:17-44 | Results are appended or replaced as in the newest generation. The count is the number of results when appending, otherwise the sent count exactly as sent, possibly missing. `page` and `next` are copied from the payload with no default. |
| LegacyCollections.Fetch | src/collections/reducers.ts:46-67 | Old results are read at `subgroup \|\| ''`, and the new collection is written at `[subgroup]`, the key "undefined" when the subgroup is missing. Every other slot and tag is kept, and an event that is malformed or names an unregistered tag is ignored. |
| LegacyCollections.Clear | src/collections/reducers.ts:139-169 | The slot named by `payload.subgroup` as given becomes the empty first page, and nothing else changes. |
| LegacyCollections.CollectionsReducer | src/collections/index.ts:95-111 | Routes fetch, add, delete and clear, where add and delete are the newest generation's code. Any other event type leaves the state unchanged. |
| LegacyCollections.CountCopiedVerbatim | src/collections/reducers.ts:31 | When not appending, the count is the sent count even when it is missing or 0. |
| LegacyCollections.PageCopiedVerbatim | src/collections/reducers.ts:22-30 | A response without a page leaves the page missing, with no default of 1. |
| LegacyCollections.FetchWithoutSubgroupWritesUndefinedKey | src/collections/reducers.ts:40-43 | A fetch with no subgroup writes the key "undefined" and never refreshes slot ''. |
| LegacyCollections.ClearWithoutSubgroupWritesUndefinedKey | src/collections/reducers.ts:144-165 | A clear with no subgroup empties the key "undefined" and leaves slot '' as it was. |
| LegacyCollections.ClearIdempotent | src/collections/reducers.ts:139-169 | Clearing twice equals clearing once. |
| LegacyCollections.FetchReplaceIdempotent | src/collections/reducers.ts:17-67 | Applying the same replacing fetch twice equals applying it once. |
| Monolith.BuildStore | src/collections.ts:60-66 | Every registered type starts as an empty group, and there are no other keys. |
| Monolith.GetCollectionByName | src/collections.ts:68-75 | Returns the named collection of a group, or the empty first page when it is missing. A type replaced by a single collection answers every name with the empty first page. |
| Monolith.Fetch | src/collections.ts:89-139 | Old results are read at `collectionName \|\| ''` and the new collection is written at `[collectionName]`. The count is the number of results when appending and the server count otherwise, and the page is copied. Every other type and name is kept. |
| Monolith.Add | src/collections.ts:141-168 | The named collection gains the built record and one count, and becomes the type's whole entry in place of its group. |
| Monolith.CollectionsReducer | src/collections.ts:227-244 | Only fetch success and add success are handled. Every other event type returns the state unchanged. |
| Monolith.DeleteAndClearIgnored | src/collections.ts:227-244 | Delete and clear events leave the store exactly as it was. |
| Monolith.AddDropsOtherCollections | src/collections.ts:153-164 | After an add, every other name of that type reads the empty first page. |
| Monolith.FetchIgnoresSubgroup | src/collections.ts:117-120 | An event that names a subgroup but no collection name is stored under the key "undefined". |
| Monolith.FreshStoreIsEmpty | src/collections.ts:60-75 | A fresh store reads the empty first page for every registered type and name. |
| CollectionActions.AddItem | src/ts/collections/index.ts:55-68 | Builds a POST of the data, tagged with the type. The url is the explicit url, else the override url, else `baseUrl + type + "/"`. The metadata's subgroup is namespaced by the override url. |
| CollectionActions.ClearCollection | src/ts/collections/index.ts:70-81 | Builds the clear event. Its payload names the type and the namespaced subgroup, and it has no metadata. |
| CollectionActions.DeleteItem | src/ts/collections/index.ts:83-98 | Builds a DELETE of `overrideUrl + id + "/"`, or of `baseUrl + type + "/" + id + "/"`. The metadata carries the item id and the namespaced subgroup. |
| CollectionActions.GetCollectionRequest | src/ts/collections/index.ts:115-138 | Builds a GET of the override url or `baseUrl + type + "/"`, with the options as the body. The paging options and the namespaced subgroup go into the metadata. |
| CollectionActions.GetAllCollectionRequest | src/ts/collections/index.ts:100-113 | Same as getCollection, with the page size forced to 10000 over the caller's options. |
| CollectionActions.CollectionAtSubpath | src/ts/collections/index.ts:193-227 | A subpath exists exactly when every placeholder of the route has a non-empty value. Its url is `baseUrl + compiled route + "/"`. |
| CollectionActions.SubpathAddItem | src/ts/collections/index.ts:197-211 | Every bound add writes to the subpath's namespaced slot for the caller's subgroup, at the subpath url unless given one. |
| CollectionActions.SubpathClearCollection | src/ts/collections/index.ts:197-211 | The bound clear names the subpath's namespaced slot. |
| CollectionActions.SubpathDeleteItem | src/ts/collections/index.ts:197-211 | The bound delete targets `subpath url + id + "/"` and the namespaced slot. |
| CollectionActions.SubpathGetCollection | src/ts/collections/index.ts:197-211 | The bound fetch requests the subpath url and fills the namespaced slot. |
| CollectionActions.SubpathGetAllCollection | src/ts/collections/index.ts:197-211 | The bound fetch-all fills the namespaced slot, with a page size of 10000. |
| CollectionActions.GetSubpathCollection | src/ts/collections/index.ts:212-218 | Reads the slot named by the subpath's namespaced subgroup, never the plain one, with the empty first page as the default. |
| CollectionActions.GetSubpathCollectionResults | src/ts/collections/index.ts:219-225 | Returns the results of the collection the subpath getter reads. |
| CollectionActions.PlainActionsKeepSubgroup | src/ts/collections/index.ts:55-98 | Without a subpath the caller's subgroup passes through every creator unchanged, and the urls are the type's urls. |
| CollectionActions.SubpathFetchLandsWhereGetterReads | src/ts/collections/index.ts:193-227 | A page fetched through a subpath is stored in the slot that the subpath's getter reads, for every caller subgroup, the missing one included. |
| CollectionActions.SubpathsDoNotShareSlots | src/ts/collections/index.ts:193-227 | Two subpaths with different urls never share a slot. |
| CollectionActions.SubpathUrlForOneParameter | src/ts/collections/index.ts:194-196 | A route `prefix:name` bound at a non-empty value has url `baseUrl + prefix + value + "/"`. |
| CollectionActions.LegacyAddItem | src/collections/index.ts:42-44 | Builds a POST to the explicit url or `/api/type/`, with the collection name as metadata. |
| CollectionActions.LegacyClearCollection | src/collections/index.ts:46-54 | The clear event's payload is `{collectionName, type}` and carries no `subgroup`. |
| CollectionActions.LegacyDeleteItem | src/collections/index.ts:56-66 | Builds a DELETE of `/api/type/id/`, with `{collectionName, itemId}` as metadata. |
| CollectionActions.LegacyGetCollection | src/collections/index.ts:79-93 | Builds a GET of `/api/type/` followed by the collection query string, with the paging options and collection name as metadata. |
| CollectionActions.LegacyGetAllCollection | src/collections/index.ts:68-77 | The query string is built with the page size forced to 10000. |
| CollectionActions.LegacyDefaultCollectionUrl | src/collections/index.ts:79-93 | With no options the url is `/api/type/?page=1&page_size=12`. |
| CollectionActions.LegacyGetMissesLegacyFetch | src/collections/index.ts:79-93 | A fetch requested by the older creator carries no subgroup, so the middle generation's reducer stores it under "undefined" whatever collection name was asked for. |
| CollectionActions.LegacyClearMissesLegacyClear | src/collections/index.ts:46-54 | The older clear event makes the middle generation's reducer empty the key "undefined". |
| CollectionActions.MonolithCreatorsMatchReducers | src/collections.ts:211-225 | In the single file, a fetch requested for a collection name lands in that name's slot. |
| Items.BuildItemStore | src/items/utils.ts:9-15 | There is exactly one entry per registered type, and each entry is an empty group. |
| Items.ClearItem | src/items/reducers.ts:17-37 | Also models src/ts/items/reducers.ts, lines 12-32. Slot `payload.subgroup \|\| ''` of `payload.type` holds no record, and nothing else changes. An event without an FSA shape, a truthy payload or a registered type is ignored. |
| Items.SetItem | src/items/reducers.ts:39-59 | Also models src/ts/items/reducers.ts, lines 34-55. Slot `meta.subgroup \|\| ''` of the tagged type holds the record built from `payload.data`, whatever it held before, and nothing else changes. An event without metadata or with an unregistered tag is ignored. |
| Items.Update | src/items/index.ts:83-92 | The update is applied exactly when the tag is registered and the slot is empty or holds an item with the payload's `id`. Otherwise the state is unchanged. |
| Items.ItemsReducer | src/items/index.ts:74-96 | Routes the clear, get-success and update-success events. Every other event type, such as a request event, leaves the state unchanged. |
| Items.ItemTypesDistinct | src/items/actions.ts:5-7 | The three routed item event types are pairwise different. |
| Items.GetItemRequest | src/items/index.ts:61-64 | Builds a GET of `/api/type/id/` with the item id and subgroup as metadata. |
| Items.UpdateRequest | src/items/index.ts:36-45 | Every update goes through UPDATE_ITEM with the given verb, url and data, tagged with the type, with the id and subgroup as metadata. |
| Items.UpdateItemRequest | src/items/index.ts:70-72 | `updateItem` is a PUT of `/api/type/id/`. |
| Items.PatchItemRequest | src/items/index.ts:66-68 | `patchItem` is a PATCH of `/api/type/id/`. |
| Items.ActionItemRequest | src/items/index.ts:47-49 | `actionItem` is a POST of `/api/type/id/action/`. |
| Items.ClearItemAction | src/items/index.ts:51-59 | The clear event carries `{subgroup, type}` and no metadata. |
| Items.FreshStoreHasNoItems | src/items/utils.ts:9-15 | A fresh item store holds no item in any slot. |
| Items.ClearItemIdempotent | src/items/reducers.ts:28-33 | Clearing twice equals clearing once. |
| Items.SetItemIdempotent | src/items/reducers.ts:44-55 | Loading the same response twice equals loading it once. |
| Items.LoadedItemIsRead | src/items/reducers.ts:46-53 | A loaded item is read back from the slot its event named. |
| Items.UpdateGuard | src/items/index.ts:83-92 | An update lands when the slot is empty or holds the payload's id, and is ignored when the stored id differs. |
| Items.WrappedUpdateIgnored | src/items/index.ts:83-92 | The guard compares `payload.id` while the record is built from `payload.data`. So a response shaped `{data: {...}}` never replaces a stored item that has an id. |
| Items.CreatorsShareSlots | src/items/index.ts:36-96 | An update dispatched with a subgroup fills that slot when it was empty, and the clear event for the same subgroup empties it again. |
| RequestStatus.SetRequestState | src/requests/actions.ts:15-25 | The status event carries the action set, the data, the phase under `requestState`, and the tag. |
| RequestStatus.LegacySetRequestState | src/requests.ts:51-62 | The single file's status event names the phase `state`, and has no `requestState`. |
| RequestStatus.ResetRequestState | src/requests/actions.ts:27-36 | The reset event carries the action set and the tag, which may be missing. |
| RequestStatus.StatusTypesDistinct | src/requests/actions.ts:14-36 | The status and reset event types differ. |
| RequestStatus.ResponsesReducer | src/requests/reducers.ts:17-66 | A status event records its phase and data at `[actionSet.REQUEST][tag \|\| '']`, and a reset records `null` for both. Every other slot is kept. A non-FSA event or any other event type leaves the state unchanged. |
| RequestStatus.GetResponse | src/requests/utils.ts:69-71 | Returns the recorded state of that request and tag, or `{}` when nothing is recorded. |
| RequestStatus.RecordedPhase | src/requests/utils.ts:72-82 | The phase the selectors read is the `requestState` recorded at `[actionSet.REQUEST][tag \|\| '']`, or `undefined` when nothing is recorded. |
| RequestStatus.InPhase | src/requests/utils.ts:72-82 | A request is in a phase exactly when a state is recorded for its action set and tag and that state's `requestState` is the phase's name. |
| RequestStatus.IsPending | src/requests/utils.ts:72-74 | `isPending` holds exactly when the recorded phase is "REQUEST". |
| RequestStatus.HasFailed | src/requests/utils.ts:76-78 | `hasFailed` holds exactly when the recorded phase is "FAILURE". |
| RequestStatus.HasSucceeded | src/requests/utils.ts:80-82 | `hasSucceded` holds exactly when the recorded phase is "SUCCESS". |
| RequestStatus.GetErrorData | src/requests/utils.ts:98-106 | Returns the recorded data only when the request has failed, otherwise `undefined`. |
| RequestStatus.AnyPending | src/requests/utils.ts:84-96 | True exactly when some watched entry, plain or tagged, is pending. |
| RequestStatus.PhasesExclusive | src/requests/utils.ts:72-82 | A request is in at most one of pending, failed and succeeded. |
| RequestStatus.AbsentTagIsEmptyTag | src/requests/utils.ts:69-71 | A missing tag and the empty tag read the same request. |
| RequestStatus.FreshStateRecordsNothing | src/requests/reducers.ts:17-66 | Before any status event, every request reads `{}`. |
| RequestStatus.SetThenRead | src/requests/reducers.ts:22-42 | After a status event, the selectors report exactly its phase and data, and the error data only for a failure. |
| RequestStatus.SetIsolated | src/requests/reducers.ts:30-39 | A status event changes no other action set and no other tag. |
| RequestStatus.ResetClears | src/requests/reducers.ts:43-61 | After a reset the request is in no phase and has no error data. |
| RequestStatus.LegacyPhaseNeverSeen | src/requests.ts:51-62 | With the single file's status event the reducer finds no phase, so no selector reports one, whatever phase was sent. |
| Dispatcher.IsResponse | src/requests/utils.ts:54-59 | Holds exactly for an object that owns `data`, `status` and `config`. For `null` the check throws. |
| Dispatcher.MetaWithResponse | src/requests/utils.ts:61-67 | Returns the metadata unchanged unless given a response, in which case it adds `response`. It throws for `null`. |
| Dispatcher.DispatchGenericRequest | src/requests/actions.ts:38-74 | First come the request event carrying `preserveOriginal` and the pending status. On success, the success event carries the response data with the response in its metadata, then the success status, and the call resolves with the response. On failure, the failure event carries the error data, then the failure status, and the call rejects with the original error. Building a failure event from a `null` response throws after the first two events. |
| Dispatcher.EventTypesApart | src/requests/reducers.ts:17-66 | No request, success or failure type equals a status event type, so the status reducer ignores those events. |
| Dispatcher.AnsweredRequestSucceeds | src/requests/actions.ts:50-62 | After an answered request, the status reads succeeded with the response data. |
| Dispatcher.ErroredRequestFails | src/requests/actions.ts:50-72 | After a rejected request, the status reads failed with the error data. |
| Dispatcher.NullResponseStaysPending | src/requests/actions.ts:63-72 | An error whose response is `null` dispatches only the first two events, and the request stays pending. |
| Dispatcher.SingleFileRequestNeverSeen | src/requests.ts:100-136 | A request made through src/requests.ts sends its status events with the phase under `state`. Fed to the newest `responsesReducer`, which src/requests.ts does not ship, it leaves no phase for any selector to report, whatever the transport answered or rejected. |
| Dispatcher.CompletedCallShape | src/requests/actions.ts:50-71 | A completed call dispatches four events: the request event, then exactly one of success and failure, each followed by a status event. |
| Dispatcher.HttpErrorCarriesResponse | src/requests/actions.ts:63-72 | An HTTP error's failure event carries the response data, and its metadata gains the response. |
| Dispatcher.NetworkErrorCarriesNothing | src/requests/actions.ts:63-72 | A failure without a response carries `undefined`, and its metadata is left as dispatched. |
| Dispatcher.SuccessCarriesResponse | src/requests/actions.ts:54-62 | The success event carries the response data, the response itself and the tag. |

## Left out

- `apiRequest`, axios, headers and the CSRF cookie are transport I/O. The transport is the `Outcome` parameter of `Dispatcher.DispatchGenericRequest`, and a response carries only `data`, `status` and `config`.
- Promise and thunk mechanics are not modelled; only the event trace and the settlement are. As a result:
  - a throw inside the success branch, which the source's `.catch` would also handle, is not modelled;
  - the first two dispatches are assumed not to throw.
- `pathToRegexp.compile` is replaced by plain `:name` substitution of string values, where a missing or empty value fails. Modifiers, custom patterns, URI encoding, and the validation of other values against the default pattern are not modelled.
- `isFSA` is a boolean field of the event rather than a shape check.
- Reference identity is replaced by value equality.
- JavaScript object key order: integer-like keys enumerating first and prototype keys are not modelled. Parameters are an ordered list with object-spread assignment.
- A payload field of another type than the one declared is read as missing. For example, a numeric `actionSet.REQUEST` becomes the key "undefined", where JavaScript would stringify it.
- Numbers are integers; floating point and `NaN` arithmetic are not modelled beyond a missing count staying missing.
- Monolith.GetCollectionByName: reading a collection's own field name (`page`, `results`, …) from a type that an add has replaced is excluded by its precondition rather than returning that field.
- Monolith.Fetch: requires the type to still hold a group. A fetch after an add, which in the source spreads a collection's fields as slots, is not modelled.
- `getItemByName` (src/items/utils.ts) and src/ts/collections/utils.ts are not part of this model. Items are read by a direct slot lookup (`Items.ItemAt`), and the newest generation's store accessors are taken to be those of src/collections/utils.ts.
- The newest generation's item functor (src/ts/items/index.ts) is not part of this model. The item tests exercise that functor, so they are not compared with the older guard in src/items/index.ts.
- The request creators of the single-file generation are modelled once, in `CollectionActions.Legacy…`. The src/collections.ts copies are identical.
- Duplicated helpers are modelled once: `formatQueryParams`, `makeAsyncActionSet`, `metaWithResponse` and `formatCollectionQueryParams` in their src/requests and src/collections versions.
- CollectionActions.GetCollectionRequest: the options travel as the request body. What the transport does with them is outside the model.
- The `baseUrl` default of '/api/' from the composition glue is a parameter of the newest creators.
- Type-only and composition files (`types.ts`, `src/index.ts`, `src/ts/index.ts`) contribute only datatype shapes and constants.
