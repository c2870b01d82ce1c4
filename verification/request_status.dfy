/** Request status tracking: the events announcing a request's phase, the
    reducer that records the latest phase and data per action set and tag,
    and the selectors over it. */
module RequestStatus {
  import opened Wrappers
  import opened Js
  import opened Events

  /** The phases a request goes through (`RequestStates`). */
  datatype Phase = Requested | Succeeded | Failed

  function PhaseName(p: Phase): (s: string)
    ensures |s| > 0
  {
    match p
    case Requested => "REQUEST"
    case Succeeded => "SUCCESS"
    case Failed => "FAILURE"
  }

  /** What is recorded for one request (`IResponseState`): the phase as it
      was sent (or `null` after a reset) and the data that came with it. */
  datatype ResponseState = ResponseState(requestState: Json, data: Json)

  /** `{}` as a response state: both fields read `undefined`. */
  const NoResponse := ResponseState(Undefined, Undefined)

  /** `ResponsesReducerState`: by `actionSet.REQUEST`, then by tag. */
  type ResponsesState = map<string, map<string, ResponseState>>

  /** `setRequestState(actionSet, requestState, data, tag?)`. */
  function SetRequestState(s: ActionSet, phase: Phase, data: Json, tag: Option<string>): (a: Action)
    ensures a.kind == RequestStateType && a.fsa && a.meta.None? && !Nullish(a.payload)
    ensures Get(a.payload, "actionSet") == ActionSetJson(s)
    ensures Get(a.payload, "requestState") == Str(PhaseName(phase))
    ensures Get(a.payload, "data") == data && StrAt(a.payload, "tag") == tag
  {
    Action(RequestStateType, true, None, Obj(map[
      "actionSet" := ActionSetJson(s), "data" := data,
      "requestState" := Str(PhaseName(phase)), "tag" := StrOrUndefined(tag)]))
  }

  /** The single-file generation's `setRequestState`, which sends the phase
      under the key `state`: the reducer finds no `requestState`. */
  function LegacySetRequestState(s: ActionSet, phase: Phase, data: Json, tag: Option<string>): (a: Action)
    ensures a.kind == RequestStateType && a.fsa && a.meta.None? && !Nullish(a.payload)
    ensures Get(a.payload, "actionSet") == ActionSetJson(s)
    ensures Get(a.payload, "requestState").Undefined? && Get(a.payload, "state") == Str(PhaseName(phase))
    ensures Get(a.payload, "data") == data && StrAt(a.payload, "tag") == tag
  {
    Action(RequestStateType, true, None, Obj(map[
      "actionSet" := ActionSetJson(s), "data" := data,
      "state" := Str(PhaseName(phase)), "tag" := StrOrUndefined(tag)]))
  }

  /** `resetRequestState(actionSet, tag?)`. */
  function ResetRequestState(s: ActionSet, tag: Option<string>): (a: Action)
    ensures a.kind == ResetRequestStateType && a.fsa && a.meta.None? && !Nullish(a.payload)
    ensures Get(a.payload, "actionSet") == ActionSetJson(s) && StrAt(a.payload, "tag") == tag
  {
    Action(ResetRequestStateType, true, None, Obj(map["actionSet" := ActionSetJson(s), "tag" := StrOrUndefined(tag)]))
  }

  /** The two event types the reducer handles are different. */
  lemma StatusTypesDistinct()
    ensures RequestStateType != ResetRequestStateType
  {
    assert |RequestStateType| == 13 && |ResetRequestStateType| == 19;
  }

  /** A status event the reducer acts on: its payload is destructured and
      `actionSet.REQUEST` read without a guard. */
  predicate Handled(action: Action) {
    (action.kind == RequestStateType || action.kind == ResetRequestStateType) && action.fsa
  }

  predicate Readable(action: Action) {
    Handled(action) ==> !Nullish(action.payload) && !Nullish(Get(action.payload, "actionSet"))
  }

  /** The key a status event is filed under: `actionSet.REQUEST`. */
  function RequestKey(action: Action): (k: string)
    requires Readable(action) && Handled(action)
  {
    KeyOf(StrAt(Get(action.payload, "actionSet"), "REQUEST"))
  }

  /** The slot within that key: `tag || ''`. */
  function TagSlot(action: Action): (k: string)
    requires Readable(action) && Handled(action)
  {
    OrStr(StrAt(action.payload, "tag"), "")
  }

  /** `responsesReducer(state = {}, action)`: a `REQUEST_STATE` event records
      its phase and data, a `RESET_REQUEST_STATE` event records `null` for
      both, each in its own slot only; anything else keeps the state. */
  function ResponsesReducer(state: Option<ResponsesState>, action: Action): (r: ResponsesState)
    requires Readable(action)
    ensures !Handled(action) ==> r == state.GetOr(map[])
    ensures Handled(action) ==>
      var s := state.GetOr(map[]);
      var k := RequestKey(action);
      var slot := TagSlot(action);
      var existing := if k in s then s[k] else map[];
      r.Keys == s.Keys + {k}
      && (forall u :: u in s && u != k ==> r[u] == s[u])
      && r[k].Keys == existing.Keys + {slot}
      && (forall g :: g in existing && g != slot ==> r[k][g] == existing[g])
      && r[k][slot] == (if action.kind == RequestStateType
                          then ResponseState(Get(action.payload, "requestState"), Get(action.payload, "data"))
                          else ResponseState(Null, Null))
  {
    var s := state.GetOr(map[]);
    if Handled(action) then
      var k := RequestKey(action);
      var existing := if k in s then s[k] else map[];
      var recorded := if action.kind == RequestStateType
                      then ResponseState(Get(action.payload, "requestState"), Get(action.payload, "data"))
                      else ResponseState(Null, Null);
      s[k := existing[TagSlot(action) := recorded]]
    else s
  }

  /** `getResponse(state, actionSet, tag?)`: the recorded state, or `{}`. */
  function GetResponse(state: ResponsesState, s: ActionSet, tag: Option<string>): (rs: ResponseState)
    ensures s.request in state && OrStr(tag, "") in state[s.request] ==> rs == state[s.request][OrStr(tag, "")]
    ensures !(s.request in state && OrStr(tag, "") in state[s.request]) ==> rs == NoResponse
  {
    if s.request in state && OrStr(tag, "") in state[s.request] then state[s.request][OrStr(tag, "")]
    else NoResponse
  }

  /** The phase recorded at `state[actionSet.REQUEST][tag || '']`, read as in
      the selectors; nothing recorded reads `undefined`. */
  function RecordedPhase(state: ResponsesState, s: ActionSet, tag: Option<string>): (j: Json)
    ensures s.request in state && OrStr(tag, "") in state[s.request] ==>
      j == state[s.request][OrStr(tag, "")].requestState
    ensures !(s.request in state && OrStr(tag, "") in state[s.request]) ==> j.Undefined?
  {
    GetResponse(state, s, tag).requestState
  }

  /** The recorded phase is `p`. */
  function InPhase(state: ResponsesState, s: ActionSet, tag: Option<string>, p: Phase): (b: bool)
    ensures b <==> s.request in state && OrStr(tag, "") in state[s.request]
                   && state[s.request][OrStr(tag, "")].requestState == Str(PhaseName(p))
  {
    GetResponse(state, s, tag).requestState == Str(PhaseName(p))
  }

  /** `isPending(state, actionSet, tag?)`. */
  function IsPending(state: ResponsesState, s: ActionSet, tag: Option<string>): (b: bool)
    ensures b <==> RecordedPhase(state, s, tag) == Str("REQUEST")
  {
    InPhase(state, s, tag, Requested)
  }

  /** `hasFailed(state, actionSet, tag?)`. */
  function HasFailed(state: ResponsesState, s: ActionSet, tag: Option<string>): (b: bool)
    ensures b <==> RecordedPhase(state, s, tag) == Str("FAILURE")
  {
    InPhase(state, s, tag, Failed)
  }

  /** `hasSucceded(state, actionSet, tag?)`. */
  function HasSucceeded(state: ResponsesState, s: ActionSet, tag: Option<string>): (b: bool)
    ensures b <==> RecordedPhase(state, s, tag) == Str("SUCCESS")
  {
    InPhase(state, s, tag, Succeeded)
  }

  /** `getErrorData(state, actionSet, tag?)`: the data of a failed request,
      `undefined` otherwise. */
  function GetErrorData(state: ResponsesState, s: ActionSet, tag: Option<string>): (d: Json)
    ensures HasFailed(state, s, tag) ==> d == GetResponse(state, s, tag).data
    ensures !HasFailed(state, s, tag) ==> d.Undefined?
  {
    if HasFailed(state, s, tag) then GetResponse(state, s, tag).data else Undefined
  }

  /** An entry of `anyPending`'s list: an action set, or an action set with a tag. */
  datatype Watched = Plain(plain: ActionSet) | Tagged(tagged: ActionSet, tag: string)

  predicate WatchedPending(state: ResponsesState, w: Watched) {
    match w
    case Plain(s) => IsPending(state, s, None)
    case Tagged(s, tag) => IsPending(state, s, Some(tag))
  }

  /** `anyPending(state, actionSets)`: some watched request is pending. */
  method AnyPending(state: ResponsesState, watched: seq<Watched>) returns (pending: bool)
    ensures pending <==> exists i :: 0 <= i < |watched| && WatchedPending(state, watched[i])
  {
    var i := 0;
    while i < |watched|
      invariant 0 <= i <= |watched|
      invariant forall j :: 0 <= j < i ==> !WatchedPending(state, watched[j])
    {
      if WatchedPending(state, watched[i]) {
        return true;
      }
      i := i + 1;
    }
    return false;
  }

  // ---------------------------------------------------------------------
  // Properties of the reducer and the selectors.

  /** A request is in at most one phase. */
  lemma PhasesExclusive(state: ResponsesState, s: ActionSet, tag: Option<string>)
    ensures !(IsPending(state, s, tag) && HasFailed(state, s, tag))
    ensures !(IsPending(state, s, tag) && HasSucceeded(state, s, tag))
    ensures !(HasFailed(state, s, tag) && HasSucceeded(state, s, tag))
  {
  }

  /** An absent tag and the empty tag name the same request. */
  lemma AbsentTagIsEmptyTag(state: ResponsesState, s: ActionSet)
    ensures GetResponse(state, s, None) == GetResponse(state, s, Some(""))
  {
  }

  /** Nothing has been recorded in a fresh state. */
  lemma FreshStateRecordsNothing(action: Action, s: ActionSet, tag: Option<string>)
    requires !Handled(action)
    ensures GetResponse(ResponsesReducer(None, action), s, tag) == NoResponse
  {
  }

  /** After a status event the selectors report exactly its phase and data. */
  lemma {:induction false} SetThenRead(state: ResponsesState, s: ActionSet, phase: Phase, data: Json, tag: Option<string>)
    ensures var r := ResponsesReducer(Some(state), SetRequestState(s, phase, data, tag));
      GetResponse(r, s, tag) == ResponseState(Str(PhaseName(phase)), data)
      && (IsPending(r, s, tag) <==> phase == Requested)
      && (HasSucceeded(r, s, tag) <==> phase == Succeeded)
      && (HasFailed(r, s, tag) <==> phase == Failed)
      && GetErrorData(r, s, tag) == (if phase == Failed then data else Undefined)
  {
    var a := SetRequestState(s, phase, data, tag);
    assert StrAt(ActionSetJson(s), "REQUEST") == Some(s.request);
    assert RequestKey(a) == s.request;
    assert TagSlot(a) == OrStr(tag, "");
  }

  /** A status event touches only its own action set and tag. */
  lemma {:induction false} SetIsolated(state: ResponsesState, s: ActionSet, phase: Phase, data: Json, tag: Option<string>,
                                       other: ActionSet, otherTag: Option<string>)
    requires other.request != s.request || OrStr(otherTag, "") != OrStr(tag, "")
    ensures GetResponse(ResponsesReducer(Some(state), SetRequestState(s, phase, data, tag)), other, otherTag)
      == GetResponse(state, other, otherTag)
  {
    var a := SetRequestState(s, phase, data, tag);
    assert StrAt(ActionSetJson(s), "REQUEST") == Some(s.request);
    assert RequestKey(a) == s.request;
  }

  /** After a reset the request is in no phase and has no error data. */
  lemma {:induction false} ResetClears(state: ResponsesState, s: ActionSet, tag: Option<string>)
    ensures var r := ResponsesReducer(Some(state), ResetRequestState(s, tag));
      GetResponse(r, s, tag) == ResponseState(Null, Null)
      && !IsPending(r, s, tag) && !HasFailed(r, s, tag) && !HasSucceeded(r, s, tag)
      && GetErrorData(r, s, tag).Undefined?
  {
    var a := ResetRequestState(s, tag);
    StatusTypesDistinct();
    assert StrAt(ActionSetJson(s), "REQUEST") == Some(s.request);
    assert RequestKey(a) == s.request;
  }

  /** Under the single-file generation's event the phase is never found, so
      the selectors report no phase whatever was sent. */
  lemma {:induction false} LegacyPhaseNeverSeen(state: ResponsesState, s: ActionSet, phase: Phase, data: Json, tag: Option<string>)
    ensures var r := ResponsesReducer(Some(state), LegacySetRequestState(s, phase, data, tag));
      GetResponse(r, s, tag) == ResponseState(Undefined, data)
      && !IsPending(r, s, tag) && !HasFailed(r, s, tag) && !HasSucceeded(r, s, tag)
  {
    var a := LegacySetRequestState(s, phase, data, tag);
    assert StrAt(ActionSetJson(s), "REQUEST") == Some(s.request);
    assert RequestKey(a) == s.request;
    assert TagSlot(a) == OrStr(tag, "");
  }
}
