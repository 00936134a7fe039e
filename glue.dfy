/** What `JMAP.Connection` does with a response: the generic store glue
    (`didFetch`, `didFetchUpdates`, `didCommit`), the `error` redirect and
    the other response handlers the class defines, per-response dispatch as
    `receive` does it, and the callbacks `receive` schedules afterwards.
    Calls into the store, `console.log`, `alert` and `O.RunLoop.didError`
    become `Event`s appended to a log. */
module Glue {
  import opened Options
  import opened Strings
  import opened Json
  import opened Registry
  import opened Protocol
  import opened Ordered

  datatype Event =
    // store.sourceDidFetchRecords( Type, list, state, isAll )
    | DidFetchRecords(type_: TypeId, list: Json, state: Option<Json>, isAll: bool)
    // store.sourceCouldNotFindRecords( Type, notFound )
    | CouldNotFindRecords(type_: TypeId, notFound: Json)
    // store.sourceDidFetchUpdates( Type, changed, removed, oldState, newState )
    | DidFetchUpdates(type_: TypeId, changed: Option<Json>, removed: Option<Json>,
                      oldState: Option<Json>, newState: Option<Json>)
    // store.sourceDidCommitCreate( created )
    | DidCommitCreate(created: Json)
    // store.sourceDidNotCreate( storeKeys, true, errors )
    | DidNotCreate(storeKeys: seq<string>, errors: seq<Json>)
    // the store-key lists below are the store's keys for (Type, id)
    | DidCommitUpdate(type_: TypeId, ids: seq<Json>)
    | DidNotUpdate(type_: TypeId, idList: seq<string>, errors: seq<Json>)
    | DidCommitDestroy(type_: TypeId, ids: seq<Json>)
    | DidNotDestroy(type_: TypeId, idList: seq<string>, errors: seq<Json>)
    // store.sourceCommitDidChangeState( Type, oldState, newState )
    | CommitDidChangeState(type_: TypeId, fromState: Option<Json>, toState: Json)
    // an application response handler ran with ( args, reqName, reqArgs )
    | RanResponseHandler(fn: FnId, args: Json, reqName: string, reqArgs: Json)
    // console.log
    | Logged(message: string, detail: Option<Json>)
    // O.RunLoop.didError({ name, message })
    | Diagnostic(name: string, message: string)
    // a response handler threw, and receive passed the error to O.RunLoop.didError
    | HandlerThrew(responseName: string)
    // alert( O.loc( key ) )
    | Alerted(key: string)
    // this.fetchAllRecords( Type ): the connection records the fetch once
    // the responses are dispatched (ConnSpec.ConnState.Receive)
    | FetchedAll(type_: TypeId)

  /** The events a handler produced, and whether it then threw. */
  datatype Outcome = Outcome(events: seq<Event>, threw: bool)

  /** `args.key`: reading a property of `null` throws. */
  function Field(args: Json, key: string): Option<Json> {
    Prop(args, key)
  }

  /** `didFetch( Type, args, isAll )`, for an `args` that is not `null`:
      the fetched list is reported first, then the ids not found. */
  function DidFetch(t: TypeId, args: Json, isAll: bool): (evs: seq<Event>)
    ensures |evs| <= 2
  {
    var list := Field(args, "list");
    var notFound := Field(args, "notFound");
    if Truthy(list) && Truthy(notFound) then
      [DidFetchRecords(t, list.value, Field(args, "state"), isAll), CouldNotFindRecords(t, notFound.value)]
    else if Truthy(list) then [DidFetchRecords(t, list.value, Field(args, "state"), isAll)]
    else if Truthy(notFound) then [CouldNotFindRecords(t, notFound.value)]
    else []
  }

  /** What `didFetch` reports: the list when it is truthy, first, and the
      ids not found when they are truthy, last; all of them for `t`. */
  lemma DidFetchReports(t: TypeId, args: Json, isAll: bool)
    ensures var evs := DidFetch(t, args, isAll);
      && (Truthy(Field(args, "list")) <==> |evs| > 0 && evs[0].DidFetchRecords?)
      && (Truthy(Field(args, "notFound")) <==> |evs| > 0 && evs[|evs| - 1].CouldNotFindRecords?)
      && (forall i :: 0 <= i < |evs| ==> (evs[i].DidFetchRecords? || evs[i].CouldNotFindRecords?) && evs[i].type_ == t)
      && (forall i :: 0 <= i < |evs| && evs[i].DidFetchRecords? ==>
            Some(evs[i].list) == Field(args, "list") && evs[i].state == Field(args, "state") && evs[i].isAll == isAll)
      && (forall i :: 0 <= i < |evs| && evs[i].CouldNotFindRecords? ==> Some(evs[i].notFound) == Field(args, "notFound"))
  {
  }

  /** `didFetchUpdates( Type, args, reqArgs )`: the changed ids are passed on
      only when the request did not ask for the records themselves. */
  function DidFetchUpdatesOf(t: TypeId, args: Json, reqArgs: Json): (evs: seq<Event>)
    ensures |evs| == 1 && evs[0].DidFetchUpdates? && evs[0].type_ == t
    ensures Truthy(Field(reqArgs, "fetchRecords")) ==> evs[0].changed == Some(JNull)
    ensures !Truthy(Field(reqArgs, "fetchRecords")) ==> evs[0].changed == Field(args, "changed")
  {
    var hasDataForChanged := Truthy(Field(reqArgs, "fetchRecords"));
    [DidFetchUpdates(t, if hasDataForChanged then Some(JNull) else Field(args, "changed"),
                     Field(args, "removed"), Field(args, "oldState"), Field(args, "newState"))]
  }

  /** `( object = args[ key ] ) && Object.keys( object ).length` and its
      `notX` siblings: a truthy value with at least one key. */
  predicate HasKeys(v: Option<Json>) {
    Truthy(v) && |ObjectKeys(v.value)| > 0
  }

  /** `( list = args[ key ] ) && list.length`. */
  predicate HasLength(v: Option<Json>) {
    Truthy(v) && Length(v.value).Some? && Length(v.value).value != 0
  }

  /** `list.map( ... )` on a truthy `list` with a non-zero length throws
      when `list` is a string. */
  predicate MapThrows(v: Option<Json>) {
    HasLength(v) && v.value.JStr?
  }

  /** The events of `didCommit` for the created records. */
  function CreatedEvents(args: Json): (evs: seq<Event>)
    ensures forall e :: e in evs ==> e.DidCommitCreate? || e.DidNotCreate?
  {
    var created := Field(args, "created");
    var notCreated := Field(args, "notCreated");
    (if HasKeys(created) then [DidCommitCreate(created.value)] else [])
    + (if HasKeys(notCreated) then [DidNotCreate(ObjectKeys(notCreated.value), ObjectValues(notCreated.value))] else [])
  }

  /** The events of `didCommit` for the updated records. */
  function UpdatedEvents(t: TypeId, args: Json): (evs: seq<Event>)
    requires !MapThrows(Field(args, "updated"))
    ensures forall e :: e in evs ==> (e.DidCommitUpdate? || e.DidNotUpdate?) && e.type_ == t
  {
    var updated := Field(args, "updated");
    var notUpdated := Field(args, "notUpdated");
    (if HasLength(updated) then [DidCommitUpdate(t, updated.value.items)] else [])
    + (if HasKeys(notUpdated) then [DidNotUpdate(t, ObjectKeys(notUpdated.value), ObjectValues(notUpdated.value))] else [])
  }

  /** The events of `didCommit` for the destroyed records. */
  function DestroyedEvents(t: TypeId, args: Json): (evs: seq<Event>)
    requires !MapThrows(Field(args, "destroyed"))
    ensures forall e :: e in evs ==> (e.DidCommitDestroy? || e.DidNotDestroy?) && e.type_ == t
  {
    var destroyed := Field(args, "destroyed");
    var notDestroyed := Field(args, "notDestroyed");
    if HasLength(destroyed) && HasKeys(notDestroyed) then
      [DidCommitDestroy(t, destroyed.value.items),
       DidNotDestroy(t, ObjectKeys(notDestroyed.value), ObjectValues(notDestroyed.value))]
    else if HasLength(destroyed) then [DidCommitDestroy(t, destroyed.value.items)]
    else if HasKeys(notDestroyed) then [DidNotDestroy(t, ObjectKeys(notDestroyed.value), ObjectValues(notDestroyed.value))]
    else []
  }

  /** `didCommit( Type, args )`, for an `args` that is not `null`: creates,
      then updates, then destroys, then the state change. The accepted
      updates and destroys are mapped with `list.map`, which throws when the
      value is a non-empty string rather than an array: the handler then
      stops there, after the events already produced. */
  function DidCommit(t: TypeId, args: Json): (o: Outcome)
    ensures o.threw <==> MapThrows(Field(args, "updated")) || MapThrows(Field(args, "destroyed"))
    ensures CreatedEvents(args) <= o.events
    ensures !o.threw && Truthy(Field(args, "newState")) ==>
      |o.events| > 0 && o.events[|o.events| - 1] == CommitDidChangeState(t, Field(args, "oldState"), Field(args, "newState").value)
    ensures !o.threw && !Truthy(Field(args, "newState")) ==>
      forall e :: e in o.events ==> !e.CommitDidChangeState?
  {
    var newState := Field(args, "newState");
    var first := CreatedEvents(args);
    if MapThrows(Field(args, "updated")) then Outcome(first, true)
    else
      var updated := UpdatedEvents(t, args);
      var second := first + updated;
      if MapThrows(Field(args, "destroyed")) then Outcome(second, true)
      else
        var destroyed := DestroyedEvents(t, args);
        var third := second + destroyed;
        NoStateChangeIn(first, updated, destroyed);
        var stateEvents := if Truthy(newState) then [CommitDidChangeState(t, Field(args, "oldState"), newState.value)] else [];
        Outcome(third + stateEvents, false)
  }

  lemma NoStateChangeIn(a: seq<Event>, b: seq<Event>, c: seq<Event>)
    requires forall e :: e in a ==> e.DidCommitCreate? || e.DidNotCreate?
    requires forall e :: e in b ==> e.DidCommitUpdate? || e.DidNotUpdate?
    requires forall e :: e in c ==> e.DidCommitDestroy? || e.DidNotDestroy?
    ensures forall e :: e in a + b + c ==> !e.CommitDidChangeState?
  {
  }

  /** The name the `error` handler redirects to: `error_<reqName>_<type>`
      when registered, else `error_<type>`. */
  function ErrorTarget(reg: Registry, args: Json, reqName: string): (m: string)
    ensures ResponseFor(reg, "error_" + reqName + "_" + ToText(Field(args, "type"))).Some? ==>
      m == "error_" + reqName + "_" + ToText(Field(args, "type"))
    ensures ResponseFor(reg, "error_" + reqName + "_" + ToText(Field(args, "type"))).None? ==>
      m == "error_" + ToText(Field(args, "type"))
  {
    var type_ := ToText(Field(args, "type"));
    var specific := "error_" + reqName + "_" + type_;
    if ResponseFor(reg, specific).Some? then specific else "error_" + type_
  }

  /** Run a response handler other than the redirect itself. */
  function RunPlain(h: ResponseHandler, args: Json, reqName: string, reqArgs: Json): Outcome
    requires !h.ErrorRedirect?
  {
    match h
    case LogUnknownMethod => Outcome([Logged("Unknown API call made: " + reqName, None)], false)
    case LogInvalidArguments =>
      Outcome([Logged("API call to " + reqName + "made with invalid arguments: ", Some(reqArgs))], false)
    case Ignore => Outcome([], false)
    case OnFetch(t, allMethod) =>
      if args.JNull? then Outcome([], true) else Outcome(DidFetch(t, args, IsAll(allMethod, reqName, reqArgs)), false)
    case OnUpdates(t) =>
      if args.JNull? then Outcome([], true) else Outcome(DidFetchUpdatesOf(t, args, reqArgs), false)
    case OnCommit(t) =>
      if args.JNull? then Outcome([], true) else DidCommit(t, args)
    case RefetchAll(t) => Outcome([FetchedAll(t)], false)
    case CustomResponse(f) => Outcome([RanResponseHandler(f, args, reqName, reqArgs)], false)
  }

  /** The `isAll` a fetch handler passes to `didFetch`: the request was the
      type's whole-type method, called without `ids`. */
  predicate IsAll(allMethod: Option<string>, reqName: string, reqArgs: Json) {
    allMethod.Some? && reqName == allMethod.value && !Truthy(Field(reqArgs, "ids"))
  }

  /** A fetch handler reports the list as the whole type exactly for its
      type's whole-type method called without `ids`; a handler that passes
      no `isAll` never does. Other requests report it as a partial fetch. */
  lemma FetchReportsWhole(t: TypeId, allMethod: Option<string>, args: Json, reqName: string, reqArgs: Json)
    requires args.JObj? && Truthy(Field(args, "list"))
    ensures var o := RunPlain(OnFetch(t, allMethod), args, reqName, reqArgs);
      && !o.threw && |o.events| > 0 && o.events[0].DidFetchRecords?
      && (o.events[0].isAll <==> allMethod.Some? && reqName == allMethod.value && !Truthy(Field(reqArgs, "ids")))
  {
    DidFetchReports(t, args, IsAll(allMethod, reqName, reqArgs));
  }

  /** The types whose records `fetchAllRecords` was asked for, in order. */
  function Refetches(evs: seq<Event>): (ts: seq<TypeId>)
    ensures forall t :: t in ts <==> FetchedAll(t) in evs
    decreases |evs|
  {
    if evs == [] then []
    else
      assert forall e :: e in evs <==> e in evs[..|evs| - 1] || e == evs[|evs| - 1];
      Refetches(evs[..|evs| - 1]) + (if evs[|evs| - 1].FetchedAll? then [evs[|evs| - 1].type_] else [])
  }

  /** Run response handler `h` with `( args, reqName, reqArgs )`. A redirect
      that lands on the redirect itself would call it again with the same
      arguments for ever; the stack overflow is a throw. */
  function Run(reg: Registry, h: ResponseHandler, args: Json, reqName: string, reqArgs: Json): Outcome {
    if h.ErrorRedirect? then
      if args.JNull? then Outcome([], true)
      else
        match ResponseFor(reg, ErrorTarget(reg, args, reqName))
        case None => Outcome([], false)
        case Some(target) =>
          if target.ErrorRedirect? then Outcome([], true)
          else RunPlain(target, args, reqName, reqArgs)
    else RunPlain(h, args, reqName, reqArgs)
  }

  /** The first loop of `receive` for one response: look up a handler by
      name; if there is one, find the originating call at `+tag` and run the
      handler inside the `try`. */
  function DispatchOne(reg: Registry, r: Response, calls: seq<Call>): seq<Event> {
    match ResponseFor(reg, r.name)
    case None => []
    case Some(h) =>
      match CallAt(calls, r.tag)
      case None => [HandlerThrew(r.name)]
      case Some(c) =>
        var o := Run(reg, h, r.result, c.name, c.args);
        o.events + (if o.threw then [HandlerThrew(r.name)] else [])
  }

  /** The first loop of `receive` over all responses, in order. */
  function DispatchAll(reg: Registry, data: seq<Response>, calls: seq<Call>): seq<Event> {
    ConcatMap((r: Response) => DispatchOne(reg, r, calls), data)
  }

  /** A callback `receive` queued on the run loop: a tagged callback is bound
      to the responses carrying its tag and to the call at `+tag`; an
      untagged one is called with no arguments. */
  datatype Fired = Fired(cb: CallbackId, responses: Option<seq<Response>>, request: Option<Call>)

  function FireOne(e: CallbackEntry, data: seq<Response>, calls: seq<Call>): (f: Fired)
    ensures f.cb == e.cb
    ensures e.tag == "" <==> f.responses.None?
  {
    if e.tag != "" then Fired(e.cb, Some(Matching(data, e.tag)), CallAt(calls, e.tag))
    else Fired(e.cb, None, None)
  }

  function FireAll(cbs: seq<CallbackEntry>, data: seq<Response>, calls: seq<Call>): (fs: seq<Fired>)
    ensures |fs| == |cbs|
    ensures forall i :: 0 <= i < |cbs| ==> fs[i] == FireOne(cbs[i], data, calls)
  {
    seq(|cbs|, i requires 0 <= i < |cbs| => FireOne(cbs[i], data, calls))
  }

  /** Each response whose handler is registered is handed the call at its
      tag; in a batch tagged by position, that is the call it answers, and a
      response for which no handler is registered produces nothing. */
  lemma DispatchUsesOriginatingCall(reg: Registry, calls: seq<Call>, k: nat, name: string, result: Json)
    requires TagsAreIndices(calls) && k < |calls|
    ensures var r := Protocol.Response(name, result, calls[k].tag);
      DispatchOne(reg, r, calls) ==
        match ResponseFor(reg, name)
        case None => []
        case Some(h) =>
          var o := Run(reg, h, result, calls[k].name, calls[k].args);
          o.events + (if o.threw then [HandlerThrew(name)] else [])
  {
    TagsCorrelate(calls, k);
  }

  /** The `error` redirect prefers the handler specific to the request's
      method and falls back to the one for the error type alone; with
      neither registered nothing happens. */
  lemma ErrorRedirectChoice(reg: Registry, args: Json, reqName: string, reqArgs: Json)
    requires args.JObj?
    ensures var specific := "error_" + reqName + "_" + ToText(Field(args, "type"));
      var general := "error_" + ToText(Field(args, "type"));
      && (ResponseFor(reg, specific).Some? && !ResponseFor(reg, specific).value.ErrorRedirect? ==>
            Run(reg, ErrorRedirect, args, reqName, reqArgs) == RunPlain(ResponseFor(reg, specific).value, args, reqName, reqArgs))
      && (ResponseFor(reg, specific).None? && ResponseFor(reg, general).Some? && !ResponseFor(reg, general).value.ErrorRedirect? ==>
            Run(reg, ErrorRedirect, args, reqName, reqArgs) == RunPlain(ResponseFor(reg, general).value, args, reqName, reqArgs))
      && (ResponseFor(reg, specific).None? && ResponseFor(reg, general).None? ==>
            Run(reg, ErrorRedirect, args, reqName, reqArgs) == Outcome([], false))
  {
  }

  /** Every queued callback is scheduled exactly once and in order; a tagged
      one receives exactly the responses carrying its tag and, when its tag
      is the index of a call, that call; an untagged one receives nothing. */
  lemma CallbacksFireOnce(cbs: seq<CallbackEntry>, data: seq<Response>, calls: seq<Call>)
    requires TagsAreIndices(calls)
    requires forall e :: e in cbs ==> IsCallTag(e.tag, |calls|)
    ensures var fs := FireAll(cbs, data, calls);
      && |fs| == |cbs|
      && (forall i :: 0 <= i < |cbs| ==> fs[i].cb == cbs[i].cb)
      && (forall i :: 0 <= i < |cbs| && cbs[i].tag == "" ==> fs[i].responses.None? && fs[i].request.None?)
      && (forall i :: 0 <= i < |cbs| && cbs[i].tag != "" ==>
            && fs[i].responses.Some?
            && (forall x :: x in fs[i].responses.value <==> x in data && x.tag == cbs[i].tag)
            && fs[i].request.Some? && fs[i].request.value.tag == cbs[i].tag)
  {
    forall i | 0 <= i < |cbs| && cbs[i].tag != ""
      ensures CallAt(calls, cbs[i].tag).Some? && CallAt(calls, cbs[i].tag).value.tag == cbs[i].tag
    {
      assert cbs[i] in cbs;
      var k :| 0 <= k < |calls| && cbs[i].tag == NatToString(k);
      TagsCorrelate(calls, k);
    }
  }
}
