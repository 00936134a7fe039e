/** `JMAP.Connection` (libs/JMAP.js) as an object whose methods update its
    fields, each proved to do what the matching function of `ConnSpec` does
    to the connection's state. The loops of `makeRequest`, `fetchRecords`,
    `receive`, `handle` and `commitChanges` are kept as loops.

    `JMAP.auth`, which every connection consults, is passed to the methods
    that use it. A handler an application registers is a function from its
    input to the calls it makes (`env.run`). */
module Connections {
  import opened Options
  import opened Strings
  import opened Json
  import opened Ordered
  import opened OwnKeys
  import opened Registry
  import opened Protocol
  import opened Glue
  import opened Requests
  import opened CommitOrder
  import opened Auth
  import opened ConnSpec
  import opened ConnProps

  /** The `changes` object of `commitChanges`: type guid to change, in key
      order. `commitChanges` deletes the types it handles from it. */
  class ChangeSet {
    var entries: seq<(TypeId, Json)>

    ghost predicate Valid()
      reads this
    {
      Distinct(KeysOf(entries))
    }

    constructor (entries: seq<(TypeId, Json)>)
      requires Distinct(KeysOf(entries))
      ensures Valid() && this.entries == entries
    {
      this.entries := entries;
    }
  }

  class Connection {
    /** The identity `JMAP.auth` knows this connection by. */
    const id: ConnId
    /** What the application's handler functions do, and `makeSetRequest`. */
    const env: Env

    var registry: Registry
    var willRetry: bool
    var sendQueue: seq<Call>
    var callbackQueue: seq<CallbackEntry>
    /** `_queriesToFetch`, `_typesToRefresh`, `_recordsToRefresh`,
        `_typesToFetch` and `_recordsToFetch`: what the next request fetches. */
    var pending: Pending
    /** `_inFlightRemoteCalls` and `_inFlightCallbacks`, which are set and
        cleared together. */
    var inFlight: Option<Batch>
    var inFlightRequest: bool
    /** A `send` deferred to the end of the run loop is waiting. */
    var sendRequested: bool
    /** Every request body handed to `O.HttpRequest`. */
    var posted: seq<seq<Call>>
    /** Calls into the store, the console, `alert` and `O.RunLoop.didError`. */
    var events: seq<Event>
    /** Callbacks handed to `O.RunLoop.queueFn( 'middle', ... )`. */
    var scheduled: seq<Fired>

    function State(): ConnState
      reads this
    {
      ConnState(registry, willRetry, sendQueue, callbackQueue, pending, inFlight,
                inFlightRequest, sendRequested, posted, events, scheduled)
    }

    ghost predicate Valid()
      reads this
    {
      State().Valid()
    }

    /** `init`: a connection whose handler tables are the class's. */
    constructor (id: ConnId, env: Env, defaults: Tables, willRetry: bool)
      ensures Valid() && State() == ConnSpec.Initial(defaults, willRetry)
      ensures this.id == id && this.env == env
    {
      this.id := id;
      this.env := env;
      registry := ConnSpec.Initial(defaults, willRetry).registry;
      this.willRetry := willRetry;
      sendQueue := [];
      callbackQueue := [];
      pending := NoPending;
      inFlight := None;
      inFlightRequest := false;
      sendRequested := false;
      posted := [];
      events := [];
      scheduled := [];
    }

    method CallMethod(name: string, args: Json, cb: Option<CallbackId>)
      modifies this
      ensures State() == old(State()).CallMethod(name, args, cb)
    {
      var tag := NatToString(|sendQueue|);
      sendQueue := sendQueue + [Call(name, ArgsOr(args), tag)];
      if cb.Some? {
        callbackQueue := callbackQueue + [CallbackEntry(tag, cb.value)];
      }
      sendRequested := true;               // this.send()
    }

    method AddCallback(cb: CallbackId)
      modifies this
      ensures State() == old(State()).AddCallback(cb)
      ensures old(Valid()) ==> Valid()
    {
      ghost var s0 := State();
      if s0.Valid() {
        AddCallbackKeepsValid(s0, cb);
      }
      callbackQueue := callbackQueue + [CallbackEntry("", cb)];
    }

    /** A call a handler makes back into the connection. */
    method ApplyEffect(e: Effect)
      modifies this
      ensures State() == old(State()).Apply(e)
    {
      match e
      case Calls(name, args, cb) => CallMethod(name, args, cb);
      case AddsCallback(cb) => AddCallback(cb);
      case FetchesRecords(t, ids, cb, state, refresh) => var _ := FetchRecords(t, ids, cb, state, refresh);
    }

    /** What a handler does, in order. */
    method ApplyEffects(effs: seq<Effect>)
      modifies this
      ensures State() == old(State()).ApplyAll(effs)
      ensures registry == old(registry)
    {
      ghost var s0 := State();
      for i := 0 to |effs|
        invariant State() == s0.ApplyAll(effs[..i])
      {
        ApplyEffect(effs[i]);
        assert effs[..i + 1][..i] == effs[..i];
      }
      assert effs[..|effs|] == effs;
      ApplyAllKeeps(s0, effs);
    }

    /** One iteration of one of `makeRequest`'s loops, for `key`, reading the
        tables as they are now. */
    method Visit(ph: Phase, key: string)
      modifies this
      ensures State() == old(State()).Visit(env, ph, key)
    {
      ghost var s0 := State();
      match ph
      case Queries =>
        var qt := Get(pending.queries, key);
        if qt.Some? {
          var handler := QueryFetcher(registry, qt.value);
          if handler.Some? {
            ApplyEffects(env.run(handler.value, QueryArg(key, qt.value)));
          }
        }
      case TypeRefreshes =>
        var state := Get(pending.typesToRefresh, key).GetOr("");
        match Refresher(registry, key) {
        case Some(Named(m)) =>
          CallMethod(m, Single("sinceState", JStr(state)), None);
          ApplyOne(s0, Calls(m, Single("sinceState", JStr(state)), None));
        case Some(Custom(f)) => ApplyEffects(env.run(f, RefreshAll(state)));
        case None =>
        }
      case RecordRefreshes =>
        var ids := EnumeratedKeys(Get(pending.recordsToRefresh, key).GetOr([]));
        match Refresher(registry, key) {
        case Some(Named(m)) =>
          CallMethod(m, Single("ids", Strs(ids)), None);
          ApplyOne(s0, Calls(m, Single("ids", Strs(ids)), None));
        case Some(Custom(f)) => ApplyEffects(env.run(f, RefreshList(ids)));
        case None =>
        }
      case TypeFetches =>
        match Fetcher(registry, key) {
        case Some(Named(m)) =>
          CallMethod(m, JNull, None);
          ApplyOne(s0, Calls(m, JNull, None));
        case Some(Custom(f)) => ApplyEffects(env.run(f, FetchAll));
        case None =>
        }
      case RecordFetches =>
        var ids := EnumeratedKeys(Get(pending.recordsToFetch, key).GetOr([]));
        match Fetcher(registry, key) {
        case Some(Named(m)) =>
          CallMethod(m, Single("ids", Strs(ids)), None);
          ApplyOne(s0, Calls(m, Single("ids", Strs(ids)), None));
        case Some(Custom(f)) => ApplyEffects(env.run(f, FetchList(ids)));
        case None =>
        }
    }

    /** One of `makeRequest`'s `for ... in` loops: over the keys its table
        has as the loop starts. */
    method RunLoop(ph: Phase)
      modifies this
      ensures State() == old(State()).Loop(env, ph)
    {
      VisitKeys(ph, PhaseKeys(pending, ph));
    }

    /** The iterations of such a loop, one for each of `keys` in turn. */
    method VisitKeys(ph: Phase, keys: seq<string>)
      modifies this
      ensures State() == old(State()).VisitAll(env, ph, keys)
    {
      ghost var s0 := State();
      for i := 0 to |keys|
        invariant State() == s0.VisitAll(env, ph, keys[..i])
      {
        Visit(ph, keys[i]);
        VisitAllNext(env, s0, ph, keys, i);
      }
      assert keys[..|keys|] == keys;
    }

    /** The end of `makeRequest`: the queues are handed over and any future
        requests will be added to new ones. */
    method TakeQueues() returns (calls: seq<Call>, callbacks: seq<CallbackEntry>)
      modifies this
      ensures calls == old(sendQueue) && callbacks == old(callbackQueue)
      ensures State() == old(State()).(sendQueue := [], callbackQueue := [], pending := NoPending)
    {
      calls, callbacks := sendQueue, callbackQueue;
      sendQueue := [];
      callbackQueue := [];
      pending := NoPending;
    }

    /** `makeRequest()` */
    method MakeRequest() returns (calls: seq<Call>, callbacks: seq<CallbackEntry>)
      requires Valid()
      modifies this
      ensures Valid() && (Batch(calls, callbacks), State()) == old(State()).MakeRequest(env)
    {
      ghost var s0 := State();
      RunLoop(Queries);
      RunLoop(TypeRefreshes);
      RunLoop(RecordRefreshes);
      RunLoop(TypeFetches);
      RunLoop(RecordFetches);
      calls, callbacks := TakeQueues();
      MakeRequestHandsOver(env, s0);
    }

    /** The body of `send()`, run when the deferred send comes due. */
    method Send(auth: Authority)
      requires Valid() && auth.Valid()
      modifies this, auth
      ensures Valid() && auth.Valid()
      ensures (State(), auth.State()) == old(State()).Send(env, id, old(auth.State()))
    {
      ghost var s0 := State();
      ghost var a0 := auth.State();
      SendKeepsValid(env, id, s0, a0);
      ClearSendRequested();
      if inFlightRequest {
        return;
      }
      var ok := auth.ConnectionWillSend(id);
      if !ok {
        return;
      }
      Transmit();
    }

    /** The end of `send()`: a retry posts the request in flight again;
        otherwise a new request is made and posted unless it is empty. */
    method Transmit()
      requires Valid() && State().Transmit(env).Valid()
      modifies this
      ensures Valid() && State() == old(State()).Transmit(env)
    {
      ghost var s0 := State();
      if inFlight.None? {
        var calls, callbacks := MakeRequest();
        ghost var s1 := State();
        MakeRequestHandsOver(env, s0);
        assert s1.posted == s0.posted;
        if |calls| == 0 {
          return;
        }
        Launch(calls, callbacks);
      } else {
        Post();
      }
    }

    /** The deferred `send` has come due, so no send is waiting any more. */
    method ClearSendRequested()
      modifies this
      ensures State() == old(State()).(sendRequested := false)
    {
      sendRequested := false;
    }

    /** A new batch becomes the request in flight and is posted. */
    method Launch(calls: seq<Call>, callbacks: seq<CallbackEntry>)
      modifies this
      ensures State() == old(State()).(inFlight := Some(Batch(calls, callbacks)), inFlightRequest := true,
                                       posted := old(posted) + [calls])
    {
      inFlight := Some(Batch(calls, callbacks));
      inFlightRequest := true;
      posted := posted + [calls];
    }

    /** The batch already in flight is posted again. */
    method Post()
      requires inFlight.Some?
      modifies this
      ensures State() == old(State()).(inFlightRequest := true, posted := old(posted) + [old(inFlight.value.calls)])
    {
      inFlightRequest := true;
      posted := posted + [inFlight.value.calls];
    }

    /** `receive( data, callbacks, remoteCalls )` */
    method Receive(data: seq<Response>, callbacks: seq<CallbackEntry>, calls: seq<Call>)
      modifies this
      ensures State() == old(State()).Receive(data, callbacks, calls)
    {
      ghost var s0 := State();
      for i := 0 to |data|
        invariant State() == s0.Dispatch(data[..i], calls)
        invariant registry == s0.registry
      {
        DispatchNext(s0, data, calls, i);
        Deliver(data[i], calls);
      }
      assert data[..|data|] == data;
      var fs := Fire(callbacks, data, calls);
      scheduled := scheduled + fs;
    }

    /** The loop of `receive` over the callbacks: each is handed to the run
        loop, bound to its responses and its call if it has a tag. */
    static method Fire(callbacks: seq<CallbackEntry>, data: seq<Response>, calls: seq<Call>) returns (fs: seq<Fired>)
      ensures fs == FireAll(callbacks, data, calls)
    {
      fs := [];
      for i := 0 to |callbacks|
        invariant fs == FireAll(callbacks[..i], data, calls)
      {
        var e := callbacks[i];
        var fired := if e.tag != "" then Fired(e.cb, Some(Matching(data, e.tag)), CallAt(calls, e.tag))
                     else Fired(e.cb, None, None);
        fs := fs + [fired];
        assert FireAll(callbacks[..i + 1], data, calls) == FireAll(callbacks[..i], data, calls) + [fired];
      }
      assert callbacks[..|callbacks|] == callbacks;
    }

    /** One iteration of the loop of `receive` over the responses: the
        handler for `response`, if there is one, is run. */
    method Deliver(response: Response, calls: seq<Call>)
      modifies this
      ensures var evs := DispatchOne(old(registry), response, calls);
        State() == old(State()).(events := old(events) + evs).FetchAll(Refetches(evs))
    {
      var step := HandlerEvents(response, calls);
      events := events + step;
      FetchAllOf(Refetches(step));
    }

    /** What the handler for `response` does, as the `try` around it
        reports it. */
    method HandlerEvents(response: Response, calls: seq<Call>) returns (step: seq<Event>)
      ensures step == DispatchOne(registry, response, calls)
    {
      var handler := ResponseFor(registry, response.name);
      step := [];
      if handler.Some? {
        var request := CallAt(calls, response.tag);
        if request.None? {
          // `request[0]` of `undefined` throws inside the `try`
          step := [HandlerThrew(response.name)];
        } else {
          var o := Run(registry, handler.value, response.result, request.value.name, request.value.args);
          step := o.events;
          if o.threw {
            step := step + [HandlerThrew(response.name)];
          }
        }
      }
    }

    /** A handler's `fetchAllRecords` calls, one for each type in turn. */
    method FetchAllOf(ts: seq<TypeId>)
      modifies this
      ensures State() == old(State()).FetchAll(ts)
    {
      ghost var s0 := State();
      for j := 0 to |ts|
        invariant State() == s0.FetchAll(ts[..j])
      {
        var _ := FetchRecords(ts[j], None, None, "", false);
        assert ts[..j + 1][..j] == ts[..j];
      }
      assert ts[..|ts|] == ts;
    }

    /** `receive` followed by clearing the request in flight. */
    method Discard()
      requires Valid() && inFlight.Some?
      modifies this
      ensures Valid() && State() == old(State()).Discard()
    {
      ReceiveKeeps(State(), [], inFlight.value.callbacks, inFlight.value.calls);
      Complete([]);
    }

    /** The request in flight is over: its responses `data` are handed to
        `receive` with the batch's callbacks and calls, and it is cleared. */
    method Complete(data: seq<Response>)
      requires inFlight.Some?
      modifies this
      ensures State() == old(State()).Receive(data, old(inFlight.value.callbacks), old(inFlight.value.calls))
                                     .(inFlight := None)
    {
      Receive(data, inFlight.value.callbacks, inFlight.value.calls);
      inFlight := None;
    }

    /** `ioDidSucceed`, with `None` for a body that is not a JSON array. The
        event only comes for a request this connection sent. */
    method IoDidSucceed(auth: Authority, body: Option<seq<Response>>)
      requires Valid() && auth.Valid() && inFlight.Some?
      modifies this, auth
      ensures Valid() && auth.Valid()
      ensures (State(), auth.State()) == old(State()).IoDidSucceed(old(auth.State()), body)
    {
      ghost var s0 := State();
      ghost var a0 := auth.State();
      SuccessKeepsValid(s0, a0, body);
      if body.None? {
        events := events + [Diagnostic("JMAP.Connection#ioDidSucceed", "Data from server is not JSON.")];
      }
      ghost var s1 := State();
      ghost var diag := if body.None? then [Diagnostic("JMAP.Connection#ioDidSucceed", "Data from server is not JSON.")] else [];
      assert s1 == s0.(events := s0.events + diag);
      auth.ConnectionSucceeded();
      assert auth.State() == a0.Succeeded();
      Complete(body.GetOr([]));
      assert State() == s1.Receive(body.GetOr([]), s0.inFlight.value.callbacks, s0.inFlight.value.calls)
                           .(inFlight := None);
      assert (State(), auth.State()) == s0.IoDidSucceed(a0, body);
    }

    /** `ioDidFail` for HTTP status `status`. */
    method IoDidFail(auth: Authority, status: int)
      requires Valid() && auth.Valid() && inFlight.Some?
      modifies this, auth
      ensures Valid() && auth.Valid()
      ensures (State(), auth.State()) == old(State()).IoDidFail(id, old(auth.State()), status)
    {
      var discardRequest := false;
      if status == 400 || status == 413 {
        events := events + [Diagnostic("JMAP.Connection#ioDidFail", "Bad request made: ")];
        discardRequest := true;
      } else if status == 401 {
        auth.DidLoseAuthentication();
        var _ := auth.ConnectionWillSend(id);
      } else if status == 404 {
        var _ := auth.RefindEndpoints();
        var _ := auth.ConnectionWillSend(id);
      } else if status == 429 || status == 503 {
        auth.ConnectionFailed(id, 30);
      } else if status == 500 {
        events := events + [Alerted("FEEDBACK_SERVER_FAILED")];
        discardRequest := true;
      } else if willRetry {
        auth.ConnectionFailed(id, 0);
      } else {
        discardRequest := true;
      }
      if discardRequest {
        Discard();
      }
    }

    /** `ioDidEnd`: clear the request and send whatever is waiting. */
    method IoDidEnd()
      requires Valid()
      modifies this
      ensures Valid() && State() == old(State()).IoDidEnd()
    {
      inFlightRequest := false;
      sendRequested := true;
    }

    /** `hasRequests()`, as written. */
    method HasRequests() returns (r: bool)
      requires Valid()
      ensures r == State().HasRequests()
    {
      if inFlight.Some? || |sendQueue| > 0 {
        return true;
      }
      return |pending.queries| > 0 || |pending.recordsToFetch| > 0 || |pending.recordsToRefresh| > 0;
    }

    /** The tail of `fetchRecords` and `fetchQuery`: the tables of work for
        the next request become `p`, the callback (if any) is queued and
        `this.send()` defers a send to the end of the run loop. */
    method Schedule(p: Pending, cb: Option<CallbackId>)
      modifies this
      ensures State() == old(State()).(pending := p, callbackQueue := PushCallback(old(callbackQueue), "", cb),
                                       sendRequested := true)
    {
      pending := p;
      if cb.Some? {
        callbackQueue := callbackQueue + [CallbackEntry("", cb.value)];
      }
      sendRequested := true;
    }

    /** `fetchRecords( Type, ids, callback, state, _refresh )` */
    method FetchRecords(t: TypeId, ids: Option<seq<string>>, cb: Option<CallbackId>,
                        state: string, refresh: bool) returns (handled: bool)
      modifies this
      ensures (handled, State()) == old(State()).FetchRecords(t, ids, cb, state, refresh)
      ensures old(Valid()) ==> Valid()
    {
      ghost var s0 := State();
      ghost var r := s0.FetchRecords(t, ids, cb, state, refresh);
      if s0.Valid() {
        FetchRecordsKeepsValid(s0, t, ids, cb, state, refresh);
      }
      var handler := if refresh then Refresher(registry, t) else Fetcher(registry, t);
      var refresh' := refresh;
      if refresh && handler.None? {
        refresh' := false;
        handler := Fetcher(registry, t);
      }
      if handler.None? {
        assert r == (false, s0);
        return false;
      }
      var p := RecordFetch(pending, t, ids, state, refresh');
      assert r == (true, s0.(pending := p, callbackQueue := PushCallback(s0.callbackQueue, "", cb),
                             sendRequested := true));
      Schedule(p, cb);
      return true;
    }

    /** The update of the tables in `fetchRecords`. */
    static method RecordFetch(p: Pending, t: TypeId, ids: Option<seq<string>>, state: string, refresh: bool)
      returns (p': Pending)
      ensures p' == WithFetch(p, t, ids, state, refresh)
    {
      if ids.Some? {
        var table := if refresh then p.recordsToRefresh else p.recordsToFetch;
        var set_ := MergeIds(Get(table, t).GetOr([]), ids.value);
        if refresh {
          p' := p.(recordsToRefresh := Put(p.recordsToRefresh, t, set_));
        } else {
          p' := p.(recordsToFetch := Put(p.recordsToFetch, t, set_));
        }
      } else if refresh {
        p' := p.(typesToRefresh := Put(p.typesToRefresh, t, state));
      } else {
        p' := p.(typesToFetch := Include(p.typesToFetch, t));
      }
    }

    /** The loop of `fetchRecords` that adds each id, last first, to the
        ids already waiting for the type. */
    static method MergeIds(set_: seq<string>, list: seq<string>) returns (r: seq<string>)
      ensures r == MergeFromEnd(set_, list)
    {
      r := set_;
      var l := |list|;
      assert list[..l] == list;
      while l > 0
        invariant 0 <= l <= |list|
        invariant MergeFromEnd(r, list[..l]) == MergeFromEnd(set_, list)
      {
        MergeStep(r, list, l);
        l := l - 1;
        r := Include(r, list[l]);
      }
    }

    /** `fetchRecord( Type, id, callback )` */
    method FetchRecord(t: TypeId, recordId: string, cb: Option<CallbackId>) returns (handled: bool)
      requires Valid()
      modifies this
      ensures Valid() && (handled, State()) == old(State()).FetchRecords(t, Some([recordId]), cb, "", false)
    {
      handled := FetchRecords(t, Some([recordId]), cb, "", false);
    }

    /** `fetchAllRecords( Type, state, callback )`, with `""` for no state:
        a state given makes it a refresh. */
    method FetchAllRecords(t: TypeId, state: string, cb: Option<CallbackId>) returns (handled: bool)
      requires Valid()
      modifies this
      ensures Valid() && (handled, State()) == old(State()).FetchRecords(t, None, cb, state, state != "")
    {
      handled := FetchRecords(t, None, cb, state, state != "");
    }

    /** `refreshRecord( Type, id, callback )` */
    method RefreshRecord(t: TypeId, recordId: string, cb: Option<CallbackId>) returns (handled: bool)
      requires Valid()
      modifies this
      ensures Valid() && (handled, State()) == old(State()).FetchRecords(t, Some([recordId]), cb, "", true)
    {
      handled := FetchRecords(t, Some([recordId]), cb, "", true);
    }

    /** `fetchQuery( query, callback )` */
    method FetchQuery(queryId: string, queryType: TypeId, cb: Option<CallbackId>) returns (handled: bool)
      requires Valid()
      modifies this
      ensures Valid() && (handled, State()) == old(State()).FetchQuery(queryId, queryType, cb)
    {
      ghost var s0 := State();
      ghost var r := s0.FetchQuery(queryId, queryType, cb);
      FetchQueryOutcome(s0, queryId, queryType, cb);
      if QueryFetcher(registry, queryType).None? {
        return false;
      }
      Schedule(pending.(queries := Put(pending.queries, queryId, queryType)), cb);
      return true;
    }

    /** `handle( Type, handlers )`: each key in order. */
    method Handle(t: TypeId, regs: seq<Registration>)
      requires Valid()
      modifies this
      ensures Valid() && State() == old(State()).Handle(t, regs)
    {
      ghost var s0 := State();
      HandleKeepsValid(s0, t, regs);
      for i := 0 to |regs|
        invariant RegisterAll(registry, t, regs[i..]) == RegisterAll(s0.registry, t, regs)
        invariant State() == s0.(registry := registry)
      {
        assert regs[i..][1..] == regs[i + 1..];
        registry := Register(registry, t, regs[i]);
      }
      assert regs[|regs|..] == [];
    }

    /** What one iteration of `commitChanges`' loop does for `type_`. */
    method CommitType(type_: TypeId, change: Json) returns (handledType: bool)
      modifies this
      ensures var r := Requests.CommitType(env, old(registry), type_, change);
        handledType == r.1 && State() == old(State()).ApplyAll(r.0)
      ensures registry == old(registry)
    {
      ghost var s0 := State();
      ghost var r := Requests.CommitType(env, registry, type_, change);
      var handler := Committer(registry, type_);
      if handler.Some? {
        match handler.value {
          case Named(m) =>
            assert r == ([Calls(m, env.setRequest(change), None)], true);
            CallMethod(m, env.setRequest(change), None);
            ApplyOne(s0, Calls(m, env.setRequest(change), None));
          case Custom(f) =>
            assert r == (env.run(f, CommitArg(change)), true);
            ApplyEffects(env.run(f, CommitArg(change)));
        }
        ApplyAllKeeps(s0, r.0);
        return true;
      }
      var c := CreateEffects(env, registry, type_, change);
      var u := UpdateEffects(env, registry, type_, change);
      var d := DestroyEffects(env, registry, type_, change);
      assert r == (c + u + d, Creator(registry, type_).Some? || Updater(registry, type_).Some?
                              || Destroyer(registry, type_).Some?);
      handledType := Creator(registry, type_).Some? || Updater(registry, type_).Some?
                     || Destroyer(registry, type_).Some?;
      ApplyEffects(c);
      ApplyEffects(u);
      ApplyAllAppend(s0, c, u);
      ApplyEffects(d);
      ApplyAllAppend(s0, c + u, d);
    }

    /** `commitChanges( changes, callback )` */
    method CommitChanges(changes: ChangeSet, cb: Option<CallbackId>) returns (handledAny: bool)
      requires Valid() && changes.Valid()
      modifies this, changes
      ensures Valid() && changes.Valid()
      ensures (handledAny, State(), changes.entries) == old(State()).CommitChanges(env, old(changes.entries), cb)
    {
      ghost var s0 := State();
      ghost var m0 := changes.entries;
      var types := Sorted(PrecedenceTable(registry), ChangeTypes(changes.entries));
      handledAny := CommitAll(changes, types);
      if handledAny && cb.Some? {
        QueueCallback(cb);
      }
      CommitChangesByTurns(env, s0, m0, cb);
    }

    /** The loop of `commitChanges` over the sorted keys `types`: each type,
        from the end of the list, goes to its committer, and a handled type
        is deleted from the change set. */
    method CommitAll(changes: ChangeSet, types: seq<TypeId>) returns (handledAny: bool)
      modifies this, changes
      ensures (handledAny, State(), changes.entries) == old(State()).CommitTurns(env, old(changes.entries), types, |types|)
    {
      ghost var s0 := State();
      ghost var m0 := changes.entries;
      var l := |types|;
      ghost var k := 0;
      handledAny := false;
      while l > 0
        invariant 0 <= l && k + l == |types|
        invariant registry == s0.registry
        invariant (handledAny, State(), changes.entries) == s0.CommitTurns(env, m0, types, k)
      {
        handledAny := Turn(changes, types, l, handledAny, s0, m0, k);
        l := l - 1;
        k := k + 1;
      }
      assert k == |types|;
    }

    /** One iteration of `commitChanges`' loop: the type at `types[l - 1]`,
        after `k` turns. */
    method Turn(changes: ChangeSet, types: seq<TypeId>, l: nat, handledAny: bool,
                ghost s0: ConnState, ghost m0: seq<(TypeId, Json)>, ghost k: nat)
      returns (any: bool)
      requires registry == s0.registry && 0 < l && k + l == |types|
      requires (handledAny, State(), changes.entries) == s0.CommitTurns(env, m0, types, k)
      modifies this, changes
      ensures registry == s0.registry
      ensures (any, State(), changes.entries) == s0.CommitTurns(env, m0, types, k + 1)
    {
      ghost var before := (handledAny, State(), changes.entries);
      var t := types[l - 1];
      var change := Get(changes.entries, t).GetOr(JNull);
      ghost var r := Requests.CommitType(env, registry, t, change);
      CommitTurnParts(env, registry, before, t, r);
      var handledType := CommitType(t, change);
      if handledType {
        changes.entries := Remove(changes.entries, t);
      }
      any := handledAny || handledType;
      assert l - 1 == |types| - (k + 1);
      CommitTurnNext(env, s0, m0, types, k, before, (any, State(), changes.entries));
    }

    /** `this._callbackQueue.push([ '', callback ])` for a callback given. */
    method QueueCallback(cb: Option<CallbackId>)
      modifies this
      ensures State() == old(State()).(callbackQueue := PushCallback(old(callbackQueue), "", cb))
    {
      if cb.Some? {
        callbackQueue := callbackQueue + [CallbackEntry("", cb.value)];
      }
    }
  }
}
