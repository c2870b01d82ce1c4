/** `dispatchGenericRequest`: the events one request dispatches, in order,
    and how its promise settles, given what the transport answered. The
    transport itself is a parameter. */
module Dispatcher {
  import opened Wrappers
  import opened Js
  import opened Events
  import opened RequestStatus

  /** A transport response: the fields `isResponse` looks for. */
  datatype Response = Response(data: Json, status: Json, config: Json) {
    function ToJson(): (j: Json)
      ensures j.Obj? && j.fields.Keys == {"data", "status", "config"} && j.fields["data"] == data
    {
      Obj(map["data" := data, "status" := status, "config" := config])
    }
  }

  /** What the transport did: answered with a success response, or rejected
      with an error value. */
  datatype Outcome = Answered(response: Response) | Errored(error: Json)

  /** How the returned promise settles: with the response, with the
      original error, or with a `TypeError` raised while building the
      failure event. */
  datatype Settlement = Resolved(response: Response) | Rejected(error: Json) | RejectedWithTypeError

  /** The dispatched events, in order, and the settlement. */
  datatype Trace = Trace(events: seq<Action>, settlement: Settlement)

  /** The newest generation, or the single file whose `setRequestState`
      names the phase `state`. */
  datatype Generation = Current | SingleFile

  /** `isResponse(x)`: an object owning `data`, `status` and `config`.
      `typeof null` is 'object', so for `null` the `hasOwnProperty` call
      throws: that case is `None`. */
  function IsResponse(x: Json): (r: Option<bool>)
    ensures r.None? <==> x.Null?
    ensures r == Some(true) <==> x.Obj? && "data" in x.fields && "status" in x.fields && "config" in x.fields
  {
    match x
    case Null => None
    case Obj(fields) => Some("data" in fields && "status" in fields && "config" in fields)
    case _ => Some(false)
  }

  /** `metaWithResponse(meta, x)`: the metadata with `response` added when
      `x` is a response; `None` when the check throws. */
  function MetaWithResponse(meta: Meta, x: Json): (r: Option<Meta>)
    ensures r.None? <==> x.Null?
    ensures IsResponse(x) == Some(true) ==> r == Some(meta.(response := Some(x)))
    ensures IsResponse(x) == Some(false) ==> r == Some(meta)
  {
    match IsResponse(x)
    case None => None
    case Some(true) => Some(meta.(response := Some(x)))
    case Some(false) => Some(meta)
  }

  /** `error && error.response`. */
  function ErrorResponse(error: Json): (r: Json)
    ensures !Truthy(error) ==> r == error
    ensures Truthy(error) ==> r == Get(error, "response")
  {
    if Truthy(error) then Get(error, "response") else error
  }

  /** `error && error.response && error.response.data`: the first falsy
      value of the chain, or the response data. */
  function ErrorData(error: Json): (d: Json)
    ensures !Truthy(ErrorResponse(error)) ==> d == ErrorResponse(error)
    ensures Truthy(ErrorResponse(error)) ==> d == Get(ErrorResponse(error), "data")
  {
    var r := ErrorResponse(error);
    if Truthy(r) then Get(r, "data") else r
  }

  /** `{...metaData, tag}`: the tag argument replaces any tag in the
      metadata, even when it is absent. */
  function DispatchedMeta(args: RequestArgs): (m: Meta)
    ensures m.tag == args.tag && m == args.meta.(tag := args.tag)
  {
    args.meta.(tag := args.tag)
  }

  /** The status event of the given generation. */
  function StatusEvent(gen: Generation, s: ActionSet, phase: Phase, data: Json, tag: Option<string>): Action {
    match gen
    case Current => SetRequestState(s, phase, data, tag)
    case SingleFile => LegacySetRequestState(s, phase, data, tag)
  }

  /** `dispatchGenericRequest(actionSet, url, method, data, tag, metaData,
      preserveOriginal)`: the request event and the pending status first;
      then, on success, the success event carrying the response data and
      the success status, and the promise resolves; on failure, the failure
      event carrying the error data and the failure status, and the promise
      rejects with the original error, unless building the failure event
      throws. */
  function DispatchGenericRequest(gen: Generation, args: RequestArgs, preserveOriginal: Option<bool>, outcome: Outcome): (tr: Trace)
    ensures |tr.events| == (if tr.settlement.RejectedWithTypeError? then 2 else 4)
    ensures tr.events[0] == Action(args.actionSet.request, true, Some(DispatchedMeta(args)),
                                   Obj(map["preserveOriginal" := BoolOrUndefined(preserveOriginal)]))
    ensures tr.events[1] == StatusEvent(gen, args.actionSet, Requested, Null, args.tag)
    ensures outcome.Answered? ==>
      var resp := outcome.response;
      tr.settlement == Resolved(resp)
      && tr.events[2] == Action(args.actionSet.success, true,
                                Some(DispatchedMeta(args).(response := Some(resp.ToJson()))), resp.data)
      && tr.events[3] == StatusEvent(gen, args.actionSet, Succeeded, resp.data, args.tag)
    ensures outcome.Errored? ==>
      (tr.settlement.RejectedWithTypeError? <==> ErrorResponse(outcome.error).Null?)
    ensures outcome.Errored? && !ErrorResponse(outcome.error).Null? ==>
      var error := outcome.error;
      tr.settlement == Rejected(error)
      && tr.events[2] == Action(args.actionSet.failure, true,
                                MetaWithResponse(DispatchedMeta(args), ErrorResponse(error)), ErrorData(error))
      && tr.events[3] == StatusEvent(gen, args.actionSet, Failed, ErrorData(error), args.tag)
  {
    var meta := DispatchedMeta(args);
    var started := [Action(args.actionSet.request, true, Some(meta),
                           Obj(map["preserveOriginal" := BoolOrUndefined(preserveOriginal)])),
                    StatusEvent(gen, args.actionSet, Requested, Null, args.tag)];
    match outcome
    case Answered(resp) =>
      var done := MetaWithResponse(meta, resp.ToJson());
      Trace(started + [Action(args.actionSet.success, true, done, resp.data),
                       StatusEvent(gen, args.actionSet, Succeeded, resp.data, args.tag)], Resolved(resp))
    case Errored(error) =>
      match MetaWithResponse(meta, ErrorResponse(error))
      case None => Trace(started, RejectedWithTypeError)
      case Some(m) =>
        Trace(started + [Action(args.actionSet.failure, true, Some(m), ErrorData(error)),
                         StatusEvent(gen, args.actionSet, Failed, ErrorData(error), args.tag)], Rejected(error))
  }

  // ---------------------------------------------------------------------
  // What the trace does to the request status.

  /** No event type of an action set is a status event type: the reducer
      ignores the request, success and failure events. */
  lemma EventTypesApart(name: string)
    ensures var s := MakeAsyncActionSet(name);
      s.request != RequestStateType && s.request != ResetRequestStateType
      && s.success != RequestStateType && s.success != ResetRequestStateType
      && s.failure != RequestStateType && s.failure != ResetRequestStateType
  {
    var s := MakeAsyncActionSet(name);
    assert s.request[|s.request| - 1] == 'T';
    assert s.success[|s.success| - 1] == 'S';
    assert s.failure[|s.failure| - 2] == 'R';
    assert RequestStateType[|RequestStateType| - 1] == 'E';
    assert ResetRequestStateType[|ResetRequestStateType| - 1] == 'E';
    assert RequestStateType[|RequestStateType| - 2] == 'T';
    assert ResetRequestStateType[|ResetRequestStateType| - 2] == 'T';
  }

  /** Feeding events to `responsesReducer` one after another. */
  function Replay(state: ResponsesState, events: seq<Action>): ResponsesState
    requires forall i :: 0 <= i < |events| ==> RequestStatus.Readable(events[i])
    decreases |events|
  {
    if |events| == 0 then state
    else Replay(ResponsesReducer(Some(state), events[0]), events[1..])
  }

  /** Every event of a trace can be fed to `responsesReducer`. */
  lemma {:induction false} TraceReadable(gen: Generation, name: string, args: RequestArgs, preserveOriginal: Option<bool>, outcome: Outcome)
    requires args.actionSet == MakeAsyncActionSet(name)
    ensures var tr := DispatchGenericRequest(gen, args, preserveOriginal, outcome);
      forall i :: 0 <= i < |tr.events| ==> RequestStatus.Readable(tr.events[i])
  {
    EventTypesApart(name);
  }

  /** Replaying a request, pending status, other, status sequence. */
  lemma {:induction false} ReplayFour(state: ResponsesState, e0: Action, e1: Action, e2: Action, e3: Action)
    requires !Handled(e0) && !Handled(e2)
    requires RequestStatus.Readable(e1) && RequestStatus.Readable(e3)
    ensures Replay(state, [e0, e1, e2, e3])
      == ResponsesReducer(Some(ResponsesReducer(Some(state), e1)), e3)
  {
    var s2 := ResponsesReducer(Some(state), e1);
    var s4 := ResponsesReducer(Some(s2), e3);
    assert [e0, e1, e2, e3][1..] == [e1, e2, e3];
    assert [e1, e2, e3][1..] == [e2, e3];
    assert [e2, e3][1..] == [e3];
    assert [e3][1..] == [];
    assert Replay(s4, []) == s4;
    assert Replay(s2, [e3]) == Replay(s4, []);
    assert Replay(s2, [e2, e3]) == Replay(s2, [e3]);
    assert Replay(state, [e1, e2, e3]) == Replay(s2, [e2, e3]);
    assert Replay(state, [e0, e1, e2, e3]) == Replay(state, [e1, e2, e3]);
  }

  lemma {:induction false} ReplayTwo(state: ResponsesState, e0: Action, e1: Action)
    requires !Handled(e0) && RequestStatus.Readable(e1)
    ensures Replay(state, [e0, e1]) == ResponsesReducer(Some(state), e1)
  {
    var s1 := ResponsesReducer(Some(state), e1);
    assert [e0, e1][1..] == [e1];
    assert [e1][1..] == [];
    assert Replay(s1, []) == s1;
    assert Replay(state, [e1]) == Replay(s1, []);
    assert Replay(state, [e0, e1]) == Replay(state, [e1]);
  }

  /** A request whose transport answers ends with its status succeeded and
      the response data recorded. */
  lemma {:induction false} AnsweredRequestSucceeds(state: ResponsesState, name: string, args: RequestArgs,
                                                   preserveOriginal: Option<bool>, resp: Response)
    requires args.actionSet == MakeAsyncActionSet(name)
    ensures var tr := DispatchGenericRequest(Current, args, preserveOriginal, Answered(resp));
      TraceReadableAt(tr)
      && var r := Replay(state, tr.events);
      HasSucceeded(r, args.actionSet, args.tag) && GetResponse(r, args.actionSet, args.tag).data == resp.data
  {
    var tr := DispatchGenericRequest(Current, args, preserveOriginal, Answered(resp));
    TraceReadable(Current, name, args, preserveOriginal, Answered(resp));
    EventTypesApart(name);
    assert tr.events == [tr.events[0], tr.events[1], tr.events[2], tr.events[3]];
    ReplayFour(state, tr.events[0], tr.events[1], tr.events[2], tr.events[3]);
    var s1 := ResponsesReducer(Some(state), tr.events[1]);
    SetThenRead(s1, args.actionSet, Succeeded, resp.data, args.tag);
  }

  /** A request whose transport rejects ends with its status failed and the
      error data recorded, unless the error carries a `null` response. */
  lemma {:induction false} ErroredRequestFails(state: ResponsesState, name: string, args: RequestArgs,
                                               preserveOriginal: Option<bool>, error: Json)
    requires args.actionSet == MakeAsyncActionSet(name)
    requires !ErrorResponse(error).Null?
    ensures var tr := DispatchGenericRequest(Current, args, preserveOriginal, Errored(error));
      TraceReadableAt(tr)
      && var r := Replay(state, tr.events);
      HasFailed(r, args.actionSet, args.tag) && GetErrorData(r, args.actionSet, args.tag) == ErrorData(error)
  {
    var tr := DispatchGenericRequest(Current, args, preserveOriginal, Errored(error));
    TraceReadable(Current, name, args, preserveOriginal, Errored(error));
    EventTypesApart(name);
    assert tr.events == [tr.events[0], tr.events[1], tr.events[2], tr.events[3]];
    ReplayFour(state, tr.events[0], tr.events[1], tr.events[2], tr.events[3]);
    var s1 := ResponsesReducer(Some(state), tr.events[1]);
    SetThenRead(s1, args.actionSet, Failed, ErrorData(error), args.tag);
  }

  /** An error whose `response` is `null` (or a `null` rejection) makes
      building the failure event throw: only the first two events are
      dispatched and the request stays pending. */
  lemma {:induction false} NullResponseStaysPending(state: ResponsesState, name: string, args: RequestArgs,
                                                    preserveOriginal: Option<bool>, error: Json)
    requires args.actionSet == MakeAsyncActionSet(name)
    requires ErrorResponse(error).Null?
    ensures var tr := DispatchGenericRequest(Current, args, preserveOriginal, Errored(error));
      tr.settlement.RejectedWithTypeError? && |tr.events| == 2
      && TraceReadableAt(tr)
      && IsPending(Replay(state, tr.events), args.actionSet, args.tag)
  {
    var tr := DispatchGenericRequest(Current, args, preserveOriginal, Errored(error));
    TraceReadable(Current, name, args, preserveOriginal, Errored(error));
    EventTypesApart(name);
    assert tr.events == [tr.events[0], tr.events[1]];
    ReplayTwo(state, tr.events[0], tr.events[1]);
    SetThenRead(state, args.actionSet, Requested, Null, args.tag);
  }

  /** The single file's status events name the phase `state`: fed to
      `responsesReducer`, a request leaves no phase for any selector to
      report, whatever the transport did. */
  lemma {:induction false} SingleFileRequestNeverSeen(state: ResponsesState, name: string, args: RequestArgs,
                                                      preserveOriginal: Option<bool>, outcome: Outcome)
    requires args.actionSet == MakeAsyncActionSet(name)
    ensures var tr := DispatchGenericRequest(SingleFile, args, preserveOriginal, outcome);
      TraceReadableAt(tr)
      && var r := Replay(state, tr.events);
      !IsPending(r, args.actionSet, args.tag) && !HasSucceeded(r, args.actionSet, args.tag)
      && !HasFailed(r, args.actionSet, args.tag)
  {
    var tr := DispatchGenericRequest(SingleFile, args, preserveOriginal, outcome);
    TraceReadable(SingleFile, name, args, preserveOriginal, outcome);
    EventTypesApart(name);
    if tr.settlement.RejectedWithTypeError? {
      assert tr.events == [tr.events[0], tr.events[1]];
      ReplayTwo(state, tr.events[0], tr.events[1]);
      LegacyPhaseNeverSeen(state, args.actionSet, Requested, Null, args.tag);
    } else {
      assert tr.events == [tr.events[0], tr.events[1], tr.events[2], tr.events[3]];
      ReplayFour(state, tr.events[0], tr.events[1], tr.events[2], tr.events[3]);
      var s1 := ResponsesReducer(Some(state), tr.events[1]);
      match outcome {
        case Answered(resp) =>
          LegacyPhaseNeverSeen(s1, args.actionSet, Succeeded, resp.data, args.tag);
        case Errored(error) =>
          LegacyPhaseNeverSeen(s1, args.actionSet, Failed, ErrorData(error), args.tag);
      }
    }
  }

  predicate TraceReadableAt(tr: Trace) {
    forall i :: 0 <= i < |tr.events| ==> RequestStatus.Readable(tr.events[i])
  }

  /** A completed call dispatches four events: the request event first,
      then exactly one of the success and failure events, each followed by
      its status. */
  lemma {:induction false} CompletedCallShape(gen: Generation, name: string, args: RequestArgs,
                                              preserveOriginal: Option<bool>, outcome: Outcome)
    requires args.actionSet == MakeAsyncActionSet(name)
    ensures var tr := DispatchGenericRequest(gen, args, preserveOriginal, outcome);
      !tr.settlement.RejectedWithTypeError? ==>
        |tr.events| == 4
        && tr.events[0].kind == args.actionSet.request
        && (tr.events[2].kind == args.actionSet.success <==> outcome.Answered?)
        && (tr.events[2].kind == args.actionSet.failure <==> outcome.Errored?)
        && tr.events[1].kind == RequestStateType && tr.events[3].kind == RequestStateType
  {
    var tr := DispatchGenericRequest(gen, args, preserveOriginal, outcome);
    assert args.actionSet.success != args.actionSet.failure;
  }

  // ---------------------------------------------------------------------
  // What the failure event carries.

  /** An HTTP error carries the response: the failure event's payload is the
      response data and its metadata gains the response. */
  lemma HttpErrorCarriesResponse(gen: Generation, args: RequestArgs, preserveOriginal: Option<bool>,
                                 resp: Response, others: map<string, Json>)
    ensures var error := Obj(others["response" := resp.ToJson()]);
      var tr := DispatchGenericRequest(gen, args, preserveOriginal, Errored(error));
      tr.settlement == Rejected(error) && |tr.events| == 4
      && tr.events[2].payload == resp.data
      && tr.events[2].meta == Some(DispatchedMeta(args).(response := Some(resp.ToJson())))
  {
  }

  /** A network error has no response: the failure event's payload is
      `undefined` and the metadata is left as dispatched. */
  lemma NetworkErrorCarriesNothing(gen: Generation, args: RequestArgs, preserveOriginal: Option<bool>,
                                   others: map<string, Json>)
    requires "response" !in others
    ensures var error := Obj(others);
      var tr := DispatchGenericRequest(gen, args, preserveOriginal, Errored(error));
      tr.settlement == Rejected(error) && |tr.events| == 4
      && tr.events[2].payload.Undefined? && tr.events[2].meta == Some(DispatchedMeta(args))
  {
  }

  /** The success event carries the response data and the response itself. */
  lemma SuccessCarriesResponse(gen: Generation, args: RequestArgs, preserveOriginal: Option<bool>, resp: Response)
    ensures var tr := DispatchGenericRequest(gen, args, preserveOriginal, Answered(resp));
      tr.events[2].kind == args.actionSet.success && tr.events[2].payload == resp.data
      && tr.events[2].meta.Some? && tr.events[2].meta.value.response == Some(resp.ToJson())
      && tr.events[2].meta.value.tag == args.tag
  {
  }
}
