/** Events (flux standard actions) and the action-type names the cache
    dispatches and reacts to. */
module Events {
  import opened Wrappers
  import opened Js
  import opened Query

  /** The three event types of one asynchronous request (`IAsyncActionSet`). */
  datatype ActionSet = ActionSet(failure: string, request: string, success: string)

  /** `makeAsyncActionSet(actionName)`. */
  function MakeAsyncActionSet(name: string): (s: ActionSet)
    ensures s.failure == name + "_FAILURE"
    ensures s.request == name + "_REQUEST"
    ensures s.success == name + "_SUCCESS"
    ensures s.failure != s.request && s.request != s.success && s.failure != s.success
  {
    var s := ActionSet(name + "_FAILURE", name + "_REQUEST", name + "_SUCCESS");
    assert s.failure[|name| + 1] == 'F' && s.request[|name| + 1] == 'R' && s.success[|name| + 1] == 'S';
    s
  }

  /** Different names give different action sets, and no type of one set is
      a type of another: each event type belongs to exactly one request. */
  lemma {:induction false} ActionSetsDisjoint(a: string, b: string)
    requires a != b
    ensures var sa := MakeAsyncActionSet(a);
      var sb := MakeAsyncActionSet(b);
      sa.request != sb.request && sa.success != sb.success && sa.failure != sb.failure
      && sa.request != sb.success && sa.request != sb.failure
      && sa.success != sb.request && sa.success != sb.failure
      && sa.failure != sb.request && sa.failure != sb.success
  {
    var sa := MakeAsyncActionSet(a);
    var sb := MakeAsyncActionSet(b);
    SuffixCancels(a, b, "_REQUEST", "_REQUEST");
    SuffixCancels(a, b, "_SUCCESS", "_SUCCESS");
    SuffixCancels(a, b, "_FAILURE", "_FAILURE");
    SuffixCancels(a, b, "_REQUEST", "_SUCCESS");
    SuffixCancels(a, b, "_REQUEST", "_FAILURE");
    SuffixCancels(a, b, "_SUCCESS", "_REQUEST");
    SuffixCancels(a, b, "_SUCCESS", "_FAILURE");
    SuffixCancels(a, b, "_FAILURE", "_REQUEST");
    SuffixCancels(a, b, "_FAILURE", "_SUCCESS");
  }

  /** The suffixes `_REQUEST`, `_SUCCESS` and `_FAILURE` all have length 8, so
      `a + x == b + y` forces `a == b` and `x == y`. */
  lemma SuffixCancels(a: string, b: string, x: string, y: string)
    requires |x| == |y|
    ensures a + x == b + y ==> a == b && x == y
  {
    if a + x == b + y {
      assert |a| == |b|;
      assert a == (a + x)[..|a|] && b == (b + y)[..|b|];
      assert x == (a + x)[|a|..] && y == (b + y)[|b|..];
    }
  }

  const GetCollection := MakeAsyncActionSet("GET_COLLECTION")
  const AddToCollection := MakeAsyncActionSet("ADD_TO_COLLECTION")
  const DeleteFromCollection := MakeAsyncActionSet("DELETE_FROM_COLLECTION")
  const ClearCollectionType := "CLEAR_COLLECTION"
  const GetItem := MakeAsyncActionSet("GET_ITEM")
  const UpdateItem := MakeAsyncActionSet("UPDATE_ITEM")
  const ClearItemType := "CLEAR_ITEM"
  const RequestStateType := "REQUEST_STATE"
  const ResetRequestStateType := "RESET_REQUEST_STATE"

  /** The metadata an event may carry. Every field is optional: absent means
      the property is `undefined`. */
  datatype Meta = Meta(
    tag: Option<string>,
    subgroup: Option<string>,
    collectionName: Option<string>,
    itemId: Option<string>,
    shouldAppend: Option<bool>,
    ordering: Option<string>,
    reverseOrdering: Option<bool>,
    filters: Option<Dict>,
    page: Option<int>,
    response: Option<Json>)

  const NoMeta := Meta(None, None, None, None, None, None, None, None, None, None)

  /** A dispatched event: its type, whether it is a well-formed flux standard
      action (`isFSA`), its metadata (absent when `meta` is `undefined`) and
      its payload. */
  datatype Action = Action(kind: string, fsa: bool, meta: Option<Meta>, payload: Json)

  /** An action set as the plain object `{FAILURE, REQUEST, SUCCESS}`. */
  function ActionSetJson(s: ActionSet): (j: Json)
    ensures j.Obj? && Get(j, "REQUEST") == Str(s.request)
    ensures Get(j, "SUCCESS") == Str(s.success) && Get(j, "FAILURE") == Str(s.failure)
  {
    Obj(map["FAILURE" := Str(s.failure), "REQUEST" := Str(s.request), "SUCCESS" := Str(s.success)])
  }

  datatype HttpMethod = GET | POST | PUT | PATCH | DELETE

  /** The body handed to the transport: a JSON value, or the collection
      options object itself. */
  datatype Body = JsonBody(json: Json) | OptionsBody(options: CollectionOptions)

  /** The arguments an action creator hands to the request dispatcher: the
      action set, url, HTTP method, body, tag and metadata. */
  datatype RequestArgs = RequestArgs(
    actionSet: ActionSet,
    url: string,
    verb: HttpMethod,
    body: Body,
    tag: Option<string>,
    meta: Meta)
}
