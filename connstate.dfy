/** The state of a `JMAP.Connection` as a value, and what each of its
    operations does to it. The class `Connections.Connection` keeps the same
    state in fields and is proved to implement these functions; the lemmas
    here are the properties of the functions.

    Ordering with the run loop is explicit. `send` is deferred to the end of
    the run loop (`.queue( 'after' )`), so a call to it only sets
    `sendRequested`, and `Send` is the deferred body. A callback that
    `receive` hands to `O.RunLoop.queueFn( 'middle', ... )` is appended to
    `scheduled`. Calls into the store, `console.log`, `alert` and
    `O.RunLoop.didError` are appended to `events`, and every request body
    handed to `O.HttpRequest` to `posted`. */
module ConnSpec {
  import opened Options
  import opened Strings
  import opened Json
  import opened Ordered
  import opened Registry
  import opened Protocol
  import opened Glue
  import opened Requests
  import opened CommitOrder
  import opened Auth

  /** Every callback's tag is empty or the index of one of `n` calls. */
  predicate CallbacksFit(cbs: seq<CallbackEntry>, n: nat) {
    forall i :: 0 <= i < |cbs| ==> IsCallTag(cbs[i].tag, n)
  }

  /** What `send` keeps while a request is out: a non-empty list of calls
      tagged by position, and callbacks whose tags name one of them. */
  predicate BatchValid(b: Batch) {
    |b.calls| > 0 && TagsAreIndices(b.calls) && CallbacksFit(b.callbacks, |b.calls|)
  }

  function PushCallback(cbs: seq<CallbackEntry>, tag: string, cb: Option<CallbackId>): seq<CallbackEntry> {
    if cb.Some? then cbs + [CallbackEntry(tag, cb.value)] else cbs
  }

  /** The tables after `fetchRecords` records a fetch (or, with `refresh`,
      a refresh) of `t`: the ids merged into the ids already waiting for
      `t`, or the whole type. */
  function WithFetch(p: Pending, t: TypeId, ids: Option<seq<string>>, state: string, refresh: bool): Pending {
    match ids
    case Some(list) =>
      if refresh then
        p.(recordsToRefresh := Put(p.recordsToRefresh, t, MergeFromEnd(Get(p.recordsToRefresh, t).GetOr([]), list)))
      else
        p.(recordsToFetch := Put(p.recordsToFetch, t, MergeFromEnd(Get(p.recordsToFetch, t).GetOr([]), list)))
    case None =>
      if refresh then p.(typesToRefresh := Put(p.typesToRefresh, t, state))
      else p.(typesToFetch := Include(p.typesToFetch, t))
  }

  datatype ConnState = ConnState(
    registry: Registry,
    willRetry: bool,
    sendQueue: seq<Call>,
    callbackQueue: seq<CallbackEntry>,
    pending: Pending,
    inFlight: Option<Batch>,        // _inFlightRemoteCalls and _inFlightCallbacks
    inFlightRequest: bool,
    sendRequested: bool,
    posted: seq<seq<Call>>,
    events: seq<Event>,
    scheduled: seq<Fired>)
  {
    /** What every reachable state satisfies. */
    predicate Valid() {
      && TagsAreIndices(sendQueue)
      && CallbacksFit(callbackQueue, |sendQueue|)
      && Served(registry, pending)
      && (inFlight.Some? ==> BatchValid(inFlight.value))
    }

    /** `callMethod( name, args, callback )` */
    function CallMethod(name: string, args: Json, cb: Option<CallbackId>): ConnState {
      var tag := NatToString(|sendQueue|);
      this.(sendQueue := sendQueue + [Call(name, ArgsOr(args), tag)],
            callbackQueue := PushCallback(callbackQueue, tag, cb),
            sendRequested := true)
    }

    /** `addCallback( callback )` */
    function AddCallback(cb: CallbackId): ConnState {
      this.(callbackQueue := callbackQueue + [CallbackEntry("", cb)])
    }

    /** `fetchRecords( Type, ids, callback, state, _refresh )`, with `None`
        for `ids === null`. */
    function FetchRecords(t: TypeId, ids: Option<seq<string>>, cb: Option<CallbackId>,
                          state: string, refresh: bool): (bool, ConnState)
    {
      var h := if refresh then Refresher(registry, t) else Fetcher(registry, t);
      var refresh' := refresh && h.Some?;
      var handler := if refresh && h.None? then Fetcher(registry, t) else h;
      if handler.None? then (false, this)
      else (true, this.(pending := WithFetch(pending, t, ids, state, refresh'),
                        callbackQueue := PushCallback(callbackQueue, "", cb), sendRequested := true))
    }

    /** `fetchQuery( query, callback )` for a query with id `queryId` whose
        class has guid `queryType`. */
    function FetchQuery(queryId: string, queryType: TypeId, cb: Option<CallbackId>): (bool, ConnState) {
      if QueryFetcher(registry, queryType).None? then (false, this)
      else (true, this.(pending := pending.(queries := Put(pending.queries, queryId, queryType)),
                        callbackQueue := PushCallback(callbackQueue, "", cb),
                        sendRequested := true))
    }

    /** `handle( Type, handlers )` */
    function Handle(t: TypeId, regs: seq<Registration>): ConnState {
      this.(registry := RegisterAll(registry, t, regs))
    }

    /** One call a handler makes back into the connection. */
    function Apply(e: Effect): ConnState {
      match e
      case Calls(name, args, cb) => CallMethod(name, args, cb)
      case AddsCallback(cb) => AddCallback(cb)
      case FetchesRecords(t, ids, cb, state, refresh) => FetchRecords(t, ids, cb, state, refresh).1
    }

    /** The calls a handler makes back into the connection, one after the
        other. */
    function ApplyAll(effs: seq<Effect>): ConnState
      decreases |effs|
    {
      if effs == [] then this else ApplyAll(effs[..|effs| - 1]).Apply(effs[|effs| - 1])
    }

    /** One iteration of one of `makeRequest`'s loops, reading the tables as
        the earlier iterations left them. */
    function Visit(env: Env, ph: Phase, key: string): ConnState {
      ApplyAll(VisitEffects(env, registry, pending, ph, key))
    }

    /** The iterations of a loop for `keys`, in order. */
    function VisitAll(env: Env, ph: Phase, keys: seq<string>): ConnState
      decreases |keys|
    {
      if keys == [] then this else VisitAll(env, ph, keys[..|keys| - 1]).Visit(env, ph, keys[|keys| - 1])
    }

    /** One of `makeRequest`'s loops: `for ... in` visits the keys the table
        has when the loop starts (a key added to it on the way is not
        visited; every value is read when its key comes up). */
    function Loop(env: Env, ph: Phase): ConnState {
      VisitAll(env, ph, PhaseKeys(pending, ph))
    }

    /** `makeRequest()`: the five loops over the pending tables, in order;
        then both queues are handed over, and new, empty queues and tables
        take their place. */
    function MakeRequest(env: Env): (Batch, ConnState) {
      var s := Loop(env, Queries).Loop(env, TypeRefreshes).Loop(env, RecordRefreshes)
               .Loop(env, TypeFetches).Loop(env, RecordFetches);
      (Batch(s.sendQueue, s.callbackQueue), s.(sendQueue := [], callbackQueue := [], pending := NoPending))
    }

    /** The deferred body of `send()` for connection `id`, with the
        authority in state `a`. */
    function Send(env: Env, id: ConnId, a: AuthState): (ConnState, AuthState) {
      var s := this.(sendRequested := false);
      if inFlightRequest then (s, a)
      else
        var (ok, a') := a.WillSend(id);
        if !ok then (s, a')
        else (s.Transmit(env), a')
    }

    /** What `send` does once the authority lets it: post the request in
        flight again (a retry), or make a new one and post it unless it is
        empty. */
    function Transmit(env: Env): ConnState {
      if inFlight.Some? then
        this.(inFlightRequest := true, posted := posted + [inFlight.value.calls])
      else
        var (b, s') := MakeRequest(env);
        if b.calls == [] then s'
        else s'.(inFlight := Some(b), inFlightRequest := true, posted := posted + [b.calls])
    }

    /** `receive( data, callbacks, remoteCalls )`: each response goes to
        its handler, in order, and then every callback is scheduled. */
    function Receive(data: seq<Response>, callbacks: seq<CallbackEntry>, calls: seq<Call>): ConnState {
      Dispatch(data, calls).(scheduled := scheduled + FireAll(callbacks, data, calls))
    }

    /** The responses handed to their handlers one after the other: what a
        handler does to the store and the console is logged, and a type
        whose changes it cannot compute is fetched again, with
        `fetchAllRecords`, before the next response is handled. */
    function Dispatch(data: seq<Response>, calls: seq<Call>): (r: ConnState)
      ensures r.registry == registry && r.willRetry == willRetry
      ensures r.sendQueue == sendQueue && r.callbackQueue == callbackQueue
      ensures r.inFlight == inFlight && r.inFlightRequest == inFlightRequest
      ensures r.posted == posted && r.scheduled == scheduled
      decreases |data|
    {
      if data == [] then this
      else
        var s := Dispatch(data[..|data| - 1], calls);
        var evs := DispatchOne(s.registry, data[|data| - 1], calls);
        s.(events := s.events + evs).FetchAll(Refetches(evs))
    }

    /** `fetchAllRecords( Type )` for each type of `ts` in turn. */
    function FetchAll(ts: seq<TypeId>): (r: ConnState)
      ensures r.registry == registry && r.willRetry == willRetry
      ensures r.sendQueue == sendQueue && r.callbackQueue == callbackQueue
      ensures r.inFlight == inFlight && r.inFlightRequest == inFlightRequest
      ensures r.posted == posted && r.events == events && r.scheduled == scheduled
      decreases |ts|
    {
      if ts == [] then this else FetchAll(ts[..|ts| - 1]).FetchRecords(ts[|ts| - 1], None, None, "", false).1
    }

    /** Give up on the request in flight: its callbacks run with no
        responses. */
    function Discard(): ConnState
      requires inFlight.Some?
    {
      Receive([], inFlight.value.callbacks, inFlight.value.calls).(inFlight := None)
    }

    /** `ioDidSucceed`, with `None` for a body that is not a JSON array. */
    function IoDidSucceed(a: AuthState, body: Option<seq<Response>>): (ConnState, AuthState)
      requires inFlight.Some?
    {
      var diag := if body.None? then [Diagnostic("JMAP.Connection#ioDidSucceed", "Data from server is not JSON.")] else [];
      var s := this.(events := events + diag);
      (s.Receive(body.GetOr([]), inFlight.value.callbacks, inFlight.value.calls).(inFlight := None), a.Succeeded())
    }

    /** `ioDidFail` for HTTP status `status`. The diagnostic for 400 and 413
        appends the page's global `status` to its message, normally `''`. */
    function IoDidFail(id: ConnId, a: AuthState, status: int): (ConnState, AuthState)
      requires inFlight.Some?
    {
      if status == 400 || status == 413 then
        (this.(events := events + [Diagnostic("JMAP.Connection#ioDidFail", "Bad request made: ")]).Discard(), a)
      else if status == 401 then (this, a.DidLoseAuthentication().WillSend(id).1)
      else if status == 404 then (this, a.RefindEndpoints().1.WillSend(id).1)
      else if status == 429 || status == 503 then (this, a.Failed(id, 30))
      else if status == 500 then (this.(events := events + [Alerted("FEEDBACK_SERVER_FAILED")]).Discard(), a)
      else if willRetry then (this, a.Failed(id, 0))
      else (Discard(), a)
    }

    /** `ioDidEnd`: the request is over; send whatever is waiting. */
    function IoDidEnd(): ConnState {
      this.(inFlightRequest := false, sendRequested := true)
    }

    /** `commitChanges( changes, callback )`: the result, the new state and
        what is left of `changes`. */
    function CommitChanges(env: Env, changes: seq<(TypeId, Json)>, cb: Option<CallbackId>): (bool, ConnState, seq<(TypeId, Json)>) {
      var handled := HandledTypes(registry, KeysOf(changes));
      var any := handled != {};
      var s := ApplyAll(CommitEffects(env, registry, changes, CommitVisit(registry, changes)));
      (any, if any then s.(callbackQueue := PushCallback(s.callbackQueue, "", cb)) else s,
       Without(changes, handled))
    }

    /** The first `k` turns of `commitChanges`' loop over the sorted `types`,
        last first: the state, what is left of `changes` and whether any type
        was handled. Each turn reads the change of its type from the change
        set as the earlier turns left it. */
    function CommitTurns(env: Env, changes: seq<(TypeId, Json)>, types: seq<TypeId>, k: nat): (bool, ConnState, seq<(TypeId, Json)>)
      requires k <= |types|
    {
      if k == 0 then (false, this, changes)
      else CommitTurn(env, registry, CommitTurns(env, changes, types, k - 1), types[|types| - k])
    }

    /** `hasRequests()`, as written: the whole-type fetches and refreshes
        are not consulted. */
    predicate HasRequests() {
      inFlight.Some? || |sendQueue| > 0 || |pending.queries| > 0
      || |pending.recordsToFetch| > 0 || |pending.recordsToRefresh| > 0
    }

    /** `hasRequests()` as evidently intended: any queued or pending work. */
    predicate HasAnyRequests() {
      HasRequests() || |pending.typesToFetch| > 0 || |pending.typesToRefresh| > 0
    }
  }

  /** A new connection: nothing queued, nothing pending, nothing in flight. */
  function Initial(defaults: Tables, willRetry: bool): ConnState {
    ConnState(Registry(defaults, NoTables), willRetry, [], [], NoPending, None, false, false, [], [], [])
  }

  /** One turn of the `commitChanges` loop over type `t`: run its handlers,
      note whether it was handled, and delete it from the change set if so. */
  function CommitTurn(env: Env, reg: Registry, prev: (bool, ConnState, seq<(TypeId, Json)>), t: TypeId)
    : (bool, ConnState, seq<(TypeId, Json)>)
  {
    var (any, s, rest) := prev;
    var (effs, handled) := CommitType(env, reg, t, Get(rest, t).GetOr(JNull));
    (any || handled, s.ApplyAll(effs), if handled then Remove(rest, t) else rest)
  }
}
