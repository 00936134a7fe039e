/** Properties of the connection's operations (module `ConnSpec`): the
    invariant every operation keeps, how calls and callbacks are correlated
    through their tags, what a request carries, and what becomes of a
    request when it succeeds, fails or is empty. */
module ConnProps {
  import opened Options
  import opened Strings
  import opened Json
  import opened Ordered
  import opened Registry
  import opened Protocol
  import opened Glue
  import opened Requests
  import opened CommitOrder
  import opened Auth
  import opened ConnSpec
  import opened OwnKeys

  lemma CallbacksFitGrow(cbs: seq<CallbackEntry>, n: nat, m: nat)
    requires CallbacksFit(cbs, n) && n <= m
    ensures CallbacksFit(cbs, m)
  {
    forall i | 0 <= i < |cbs| ensures IsCallTag(cbs[i].tag, m) {
      if cbs[i].tag != "" {
        var k :| 0 <= k < n && cbs[i].tag == NatToString(k);
        assert k < m;
      }
    }
  }

  /** `callMethod` tags the call with its position in the queue; a callback
      given with it carries the same tag, and that tag leads back to the
      call. */
  lemma CallMethodCorrelates(s: ConnState, name: string, args: Json, cb: Option<CallbackId>)
    requires s.Valid()
    ensures var s' := s.CallMethod(name, args, cb);
      var tag := NatToString(|s.sendQueue|);
      && s'.Valid()
      && s'.sendQueue[..|s.sendQueue|] == s.sendQueue
      && CallAt(s'.sendQueue, tag) == Some(Call(name, ArgsOr(args), tag))
      && (cb.Some? ==> s'.callbackQueue == s.callbackQueue + [CallbackEntry(tag, cb.value)])
      && (cb.None? ==> s'.callbackQueue == s.callbackQueue)
      && s'.sendRequested
  {
    var s' := s.CallMethod(name, args, cb);
    var n := |s.sendQueue|;
    assert TagsAreIndices(s'.sendQueue) by {
      TaggedKeepsIndices(s.sendQueue, [Invocation(name, args)]);
      assert Tagged(n, [Invocation(name, args)]) == [Call(name, ArgsOr(args), NatToString(n))];
    }
    TagsCorrelate(s'.sendQueue, n);
    CallbacksFitGrow(s.callbackQueue, n, n + 1);
    assert IsCallTag(NatToString(n), n + 1);
  }

  lemma AddCallbackKeepsValid(s: ConnState, cb: CallbackId)
    requires s.Valid()
    ensures s.AddCallback(cb).Valid()
    ensures s.AddCallback(cb).callbackQueue == s.callbackQueue + [CallbackEntry("", cb)]
  {
  }

  /** `fetchRecords` handles a fetch exactly when the type has a fetcher, or
      a refresh when it has a refresher or, failing that, a fetcher; a
      refresh with no refresher becomes a fetch. Every id asked for is then
      pending for the type, nothing already pending is lost, and the
      invariant holds. An unhandled call changes nothing. */
  lemma FetchRecordsOutcome(s: ConnState, t: TypeId, ids: Option<seq<string>>, cb: Option<CallbackId>,
                            state: string, refresh: bool)
    requires s.Valid()
    ensures var (handled, s') := s.FetchRecords(t, ids, cb, state, refresh);
      && s'.Valid()
      && (handled <==> Fetcher(s.registry, t).Some? || (refresh && Refresher(s.registry, t).Some?))
      && (!handled ==> s' == s)
      && (handled ==> s'.sendRequested && s'.callbackQueue == PushCallback(s.callbackQueue, "", cb))
      && (handled && ids.Some? && !(refresh && Refresher(s.registry, t).Some?) ==>
            && Get(s'.pending.recordsToFetch, t).Some?
            && (forall x :: x in ids.value ==> x in Get(s'.pending.recordsToFetch, t).value)
            && Get(s.pending.recordsToFetch, t).GetOr([]) <= Get(s'.pending.recordsToFetch, t).value)
      && (handled && ids.Some? && refresh && Refresher(s.registry, t).Some? ==>
            && Get(s'.pending.recordsToRefresh, t).Some?
            && (forall x :: x in ids.value ==> x in Get(s'.pending.recordsToRefresh, t).value)
            && Get(s.pending.recordsToRefresh, t).GetOr([]) <= Get(s'.pending.recordsToRefresh, t).value)
      && (handled && ids.None? && refresh && Refresher(s.registry, t).Some? ==>
            Get(s'.pending.typesToRefresh, t) == Some(state))
      && (handled && ids.None? && !(refresh && Refresher(s.registry, t).Some?) ==>
            t in s'.pending.typesToFetch)
  {
    FetchRecordsKeepsValid(s, t, ids, cb, state, refresh);
  }

  /** `fetchRecords` keeps the invariant: what it records has a handler. */
  lemma FetchRecordsKeepsValid(s: ConnState, t: TypeId, ids: Option<seq<string>>, cb: Option<CallbackId>,
                               state: string, refresh: bool)
    requires s.Valid()
    ensures s.FetchRecords(t, ids, cb, state, refresh).1.Valid()
  {
    var (handled, s') := s.FetchRecords(t, ids, cb, state, refresh);
    if handled {
      var refresh' := refresh && Refresher(s.registry, t).Some?;
      WithFetchServed(s.registry, s.pending, t, ids, state, refresh');
      assert CallbacksFit(PushCallback(s.callbackQueue, "", cb), |s.sendQueue|);
    }
  }

  /** Recording a fetch or refresh of a type that has the handler for it
      keeps every pending entry served. */
  lemma WithFetchServed(reg: Registry, p: Pending, t: TypeId, ids: Option<seq<string>>, state: string, refresh: bool)
    requires Served(reg, p)
    requires if refresh then Refresher(reg, t).Some? else Fetcher(reg, t).Some?
    ensures Served(reg, WithFetch(p, t, ids, state, refresh))
  {
    var q := WithFetch(p, t, ids, state, refresh);
    match ids {
      case Some(list) =>
        if refresh {
          AllHaveMeans(reg, NeedRefresh, KeysOf(p.recordsToRefresh));
          AllHaveMeans(reg, NeedRefresh, KeysOf(q.recordsToRefresh));
        } else {
          AllHaveMeans(reg, NeedFetch, KeysOf(p.recordsToFetch));
          AllHaveMeans(reg, NeedFetch, KeysOf(q.recordsToFetch));
        }
      case None =>
        if refresh {
          AllHaveMeans(reg, NeedRefresh, KeysOf(p.typesToRefresh));
          AllHaveMeans(reg, NeedRefresh, KeysOf(q.typesToRefresh));
        } else {
          AllHaveMeans(reg, NeedFetch, p.typesToFetch);
          AllHaveMeans(reg, NeedFetch, q.typesToFetch);
        }
    }
  }

  /** `fetchQuery` records a query exactly when its class has a fetcher. */
  lemma FetchQueryOutcome(s: ConnState, queryId: string, queryType: TypeId, cb: Option<CallbackId>)
    requires s.Valid()
    ensures var (handled, s') := s.FetchQuery(queryId, queryType, cb);
      && s'.Valid()
      && (handled <==> QueryFetcher(s.registry, queryType).Some?)
      && (!handled ==> s' == s)
      && (handled ==> Get(s'.pending.queries, queryId) == Some(queryType)
                      && s'.callbackQueue == PushCallback(s.callbackQueue, "", cb))
  {
    var (handled, s') := s.FetchQuery(queryId, queryType, cb);
    ServedMeans(s.registry, s.pending);
    ServedMeans(s'.registry, s'.pending);
    if handled {
      PutEntries(s.pending.queries, queryId, queryType);
    }
  }

  /** Registering handlers keeps the invariant: nothing pending loses its
      handler. */
  lemma HandleKeepsValid(s: ConnState, t: TypeId, regs: seq<Registration>)
    requires s.Valid()
    ensures s.Handle(t, regs).Valid()
  {
    RegisterAllExtends(s.registry, t, regs);
    ServedExtends(s.registry, RegisterAll(s.registry, t, regs), s.pending);
  }

  // ---- what handlers do while they run

  /** What a handler's calls back into the connection leave alone: they
      add to the queues, and may change the pending tables and the send
      request, and nothing else. */
  predicate Grows(s: ConnState, s': ConnState) {
    && s'.registry == s.registry && s'.willRetry == s.willRetry
    && s'.inFlight == s.inFlight && s'.inFlightRequest == s.inFlightRequest
    && s'.posted == s.posted && s'.events == s.events && s'.scheduled == s.scheduled
    && s.sendQueue <= s'.sendQueue && s.callbackQueue <= s'.callbackQueue
  }

  lemma PrefixTrans<T>(a: seq<T>, b: seq<T>, c: seq<T>)
    requires a <= b && b <= c
    ensures a <= c
  {
    assert c[..|a|] == c[..|b|][..|a|];
  }

  lemma GrowsTrans(a: ConnState, b: ConnState, c: ConnState)
    requires Grows(a, b) && Grows(b, c)
    ensures Grows(a, c)
  {
    PrefixTrans(a.sendQueue, b.sendQueue, c.sendQueue);
    PrefixTrans(a.callbackQueue, b.callbackQueue, c.callbackQueue);
  }

  /** Each call a handler makes keeps the invariant, only adds to the
      queues, and leaves the tables alone unless it is a `fetchRecords`. */
  lemma ApplyKeeps(s: ConnState, e: Effect)
    ensures Grows(s, s.Apply(e))
    ensures !Fetches(e) ==> s.Apply(e).pending == s.pending
    ensures s.Valid() ==> s.Apply(e).Valid()
  {
    if s.Valid() {
      match e
      case Calls(name, args, cb) => CallMethodCorrelates(s, name, args, cb);
      case AddsCallback(cb) => AddCallbackKeepsValid(s, cb);
      case FetchesRecords(t, ids, cb, state, refresh) => FetchRecordsKeepsValid(s, t, ids, cb, state, refresh);
    }
  }

  /** So do all the calls a handler makes, one after the other. */
  lemma {:induction false} ApplyAllKeeps(s: ConnState, effs: seq<Effect>)
    ensures Grows(s, s.ApplyAll(effs))
    ensures (forall e :: e in effs ==> !Fetches(e)) ==> s.ApplyAll(effs).pending == s.pending
    ensures s.Valid() ==> s.ApplyAll(effs).Valid()
    decreases |effs|
  {
    if effs != [] {
      var init := effs[..|effs| - 1];
      assert effs == init + [effs[|effs| - 1]];
      ApplyAllKeeps(s, init);
      ApplyKeeps(s.ApplyAll(init), effs[|effs| - 1]);
      GrowsTrans(s, s.ApplyAll(init), s.ApplyAll(effs));
    }
  }

  /** What two handlers do, one after the other, is what both do. */
  lemma {:induction false} ApplyAllAppend(s: ConnState, a: seq<Effect>, b: seq<Effect>)
    ensures s.ApplyAll(a).ApplyAll(b) == s.ApplyAll(a + b)
    decreases |b|
  {
    if b == [] {
      assert a + b == a;
    } else {
      var init := b[..|b| - 1];
      ApplyAllAppend(s, a, init);
      assert (a + b)[..|a + b| - 1] == a + init;
      assert (a + b)[|a + b| - 1] == b[|b| - 1];
    }
  }

  /** The methods a handler calls are queued in the order it calls them,
      each tagged with its position in the queue. */
  lemma {:induction false} ApplyAllQueue(s: ConnState, effs: seq<Effect>)
    ensures s.ApplyAll(effs).sendQueue == s.sendQueue + Tagged(|s.sendQueue|, CallsOf(effs))
    decreases |effs|
  {
    var n := |s.sendQueue|;
    if effs == [] {
      assert Tagged(n, []) == [];
    } else {
      var init := effs[..|effs| - 1];
      var e := effs[|effs| - 1];
      ApplyAllQueue(s, init);
      var before := CallsOf(init);
      var extra := if e.Calls? then [Invocation(e.name, e.args)] else [];
      TaggedAppend(n, before, extra);
      ApplyQueues(s.ApplyAll(init), e);
      if e.Calls? {
        assert Tagged(n + |before|, extra) == [Call(e.name, ArgsOr(e.args), NatToString(n + |before|))];
      } else {
        assert Tagged(n + |before|, extra) == [];
      }
    }
  }

  /** A call a handler makes is queued with its position as its tag;
      nothing else the handler does queues a call. */
  lemma ApplyQueues(s: ConnState, e: Effect)
    ensures s.Apply(e).sendQueue
         == s.sendQueue + (if e.Calls? then [Call(e.name, ArgsOr(e.args), NatToString(|s.sendQueue|))] else [])
  {
  }

  /** A callback a handler adds is queued afterwards. */
  lemma {:induction false} ApplyAllCallbacks(s: ConnState, effs: seq<Effect>, cb: CallbackId)
    requires AddsCallback(cb) in effs
    ensures CallbackEntry("", cb) in s.ApplyAll(effs).callbackQueue
    decreases |effs|
  {
    var init := effs[..|effs| - 1];
    var t := s.ApplyAll(init);
    if effs[|effs| - 1] == AddsCallback(cb) {
      assert t.Apply(AddsCallback(cb)).callbackQueue == t.callbackQueue + [CallbackEntry("", cb)];
    } else {
      assert effs == init + [effs[|effs| - 1]];
      ApplyAllCallbacks(s, init, cb);
      ApplyKeeps(t, effs[|effs| - 1]);
      var q := t.callbackQueue;
      var i :| 0 <= i < |q| && q[i] == CallbackEntry("", cb);
      assert s.ApplyAll(effs).callbackQueue[i] == q[i];
    }
  }

  /** Whether a send is already requested plays no part in what the
      handlers do. */
  predicate SameButRequest(a: ConnState, b: ConnState) {
    && a.registry == b.registry && a.willRetry == b.willRetry
    && a.sendQueue == b.sendQueue && a.callbackQueue == b.callbackQueue && a.pending == b.pending
    && a.inFlight == b.inFlight && a.inFlightRequest == b.inFlightRequest
    && a.posted == b.posted && a.events == b.events && a.scheduled == b.scheduled
  }

  lemma ApplyIgnoresRequest(a: ConnState, b: ConnState, e: Effect)
    requires SameButRequest(a, b)
    ensures SameButRequest(a.Apply(e), b.Apply(e))
  {
  }

  lemma {:induction false} ApplyAllIgnoresRequest(a: ConnState, b: ConnState, effs: seq<Effect>)
    requires SameButRequest(a, b)
    ensures SameButRequest(a.ApplyAll(effs), b.ApplyAll(effs))
    decreases |effs|
  {
    if effs != [] {
      var init := effs[..|effs| - 1];
      ApplyAllIgnoresRequest(a, b, init);
      ApplyIgnoresRequest(a.ApplyAll(init), b.ApplyAll(init), effs[|effs| - 1]);
    }
  }

  lemma {:induction false} VisitAllIgnoresRequest(env: Env, a: ConnState, b: ConnState, ph: Phase, keys: seq<string>)
    requires SameButRequest(a, b)
    ensures SameButRequest(a.VisitAll(env, ph, keys), b.VisitAll(env, ph, keys))
    decreases |keys|
  {
    if keys != [] {
      var init := keys[..|keys| - 1];
      VisitAllIgnoresRequest(env, a, b, ph, init);
      var a1, b1 := a.VisitAll(env, ph, init), b.VisitAll(env, ph, init);
      assert a1.registry == b1.registry && a1.pending == b1.pending;
      ApplyAllIgnoresRequest(a1, b1, VisitEffects(env, a1.registry, a1.pending, ph, keys[|keys| - 1]));
    }
  }

  /** The batch `makeRequest` makes does not depend on whether a send was
      requested. */
  lemma MakeRequestIgnoresRequest(env: Env, s: ConnState, requested: bool)
    ensures s.(sendRequested := requested).MakeRequest(env).0 == s.MakeRequest(env).0
  {
    var a := s.(sendRequested := requested);
    var a1, b1 := a.Loop(env, Queries), s.Loop(env, Queries);
    VisitAllIgnoresRequest(env, a, s, Queries, PhaseKeys(s.pending, Queries));
    var a2, b2 := a1.Loop(env, TypeRefreshes), b1.Loop(env, TypeRefreshes);
    assert a1.pending == b1.pending;
    VisitAllIgnoresRequest(env, a1, b1, TypeRefreshes, PhaseKeys(b1.pending, TypeRefreshes));
    var a3, b3 := a2.Loop(env, RecordRefreshes), b2.Loop(env, RecordRefreshes);
    assert a2.pending == b2.pending;
    VisitAllIgnoresRequest(env, a2, b2, RecordRefreshes, PhaseKeys(b2.pending, RecordRefreshes));
    var a4, b4 := a3.Loop(env, TypeFetches), b3.Loop(env, TypeFetches);
    assert a3.pending == b3.pending;
    VisitAllIgnoresRequest(env, a3, b3, TypeFetches, PhaseKeys(b3.pending, TypeFetches));
    assert a4.pending == b4.pending;
    VisitAllIgnoresRequest(env, a4, b4, RecordFetches, PhaseKeys(b4.pending, RecordFetches));
  }

  // ---- makeRequest

  /** The iterations of a loop keep the invariant and only add to the
      queues. */
  lemma {:induction false} VisitAllKeeps(env: Env, s: ConnState, ph: Phase, keys: seq<string>)
    ensures Grows(s, s.VisitAll(env, ph, keys))
    ensures s.Valid() ==> s.VisitAll(env, ph, keys).Valid()
    decreases |keys|
  {
    if keys != [] {
      var init := keys[..|keys| - 1];
      var t := s.VisitAll(env, ph, init);
      VisitAllKeeps(env, s, ph, init);
      ApplyAllKeeps(t, VisitEffects(env, t.registry, t.pending, ph, keys[|keys| - 1]));
      GrowsTrans(s, t, s.VisitAll(env, ph, keys));
    }
  }

  /** `makeRequest` hands over everything queued: the calls and callbacks
      queued before, unchanged and first, then whatever the handlers of the
      pending work add. The batch is tagged by position, and the connection
      starts again with nothing queued or pending. */
  lemma MakeRequestHandsOver(env: Env, s: ConnState)
    ensures var (b, s') := s.MakeRequest(env);
      && s.sendQueue <= b.calls && s.callbackQueue <= b.callbacks
      && s'.sendQueue == [] && s'.callbackQueue == [] && s'.pending == NoPending
      && s'.registry == s.registry && s'.inFlight == s.inFlight && s'.inFlightRequest == s.inFlightRequest
      && s'.posted == s.posted && s'.events == s.events && s'.scheduled == s.scheduled
    ensures s.Valid() ==> var (b, s') := s.MakeRequest(env);
      TagsAreIndices(b.calls) && CallbacksFit(b.callbacks, |b.calls|) && s'.Valid()
  {
    var s1 := s.Loop(env, Queries);
    var s2 := s1.Loop(env, TypeRefreshes);
    var s3 := s2.Loop(env, RecordRefreshes);
    var s4 := s3.Loop(env, TypeFetches);
    var s5 := s4.Loop(env, RecordFetches);
    VisitAllKeeps(env, s, Queries, PhaseKeys(s.pending, Queries));
    VisitAllKeeps(env, s1, TypeRefreshes, PhaseKeys(s1.pending, TypeRefreshes));
    VisitAllKeeps(env, s2, RecordRefreshes, PhaseKeys(s2.pending, RecordRefreshes));
    VisitAllKeeps(env, s3, TypeFetches, PhaseKeys(s3.pending, TypeFetches));
    VisitAllKeeps(env, s4, RecordFetches, PhaseKeys(s4.pending, RecordFetches));
    GrowsTrans(s, s1, s2);
    GrowsTrans(s, s2, s3);
    GrowsTrans(s, s3, s4);
    GrowsTrans(s, s4, s5);
    assert Served(s5.registry, NoPending);
  }

  /** While no handler records more work, a loop reads the tables as they
      were when it began. */
  lemma {:induction false} VisitAllFollows(env: Env, s: ConnState, ph: Phase, keys: seq<string>)
    requires forall e :: e in ConcatMap(Visitor(env, s.registry, s.pending, ph), keys) ==> !Fetches(e)
    ensures s.VisitAll(env, ph, keys) == s.ApplyAll(ConcatMap(Visitor(env, s.registry, s.pending, ph), keys))
    ensures s.VisitAll(env, ph, keys).pending == s.pending && s.VisitAll(env, ph, keys).registry == s.registry
    decreases |keys|
  {
    var f := Visitor(env, s.registry, s.pending, ph);
    if keys != [] {
      var init := keys[..|keys| - 1];
      var last := keys[|keys| - 1];
      assert ConcatMap(f, keys) == ConcatMap(f, init) + f(last);
      VisitAllFollows(env, s, ph, init);
      var t := s.VisitAll(env, ph, init);
      assert f(last) == VisitEffects(env, t.registry, t.pending, ph, last);
      ApplyAllAppend(s, ConcatMap(f, init), f(last));
      ApplyAllKeeps(t, f(last));
    }
  }

  lemma LoopFollows(env: Env, s: ConnState, ph: Phase)
    requires forall e :: e in PhaseEffects(env, s.registry, s.pending, ph) ==> !Fetches(e)
    ensures s.Loop(env, ph) == s.ApplyAll(PhaseEffects(env, s.registry, s.pending, ph))
    ensures s.Loop(env, ph).pending == s.pending && s.Loop(env, ph).registry == s.registry
  {
    VisitAllFollows(env, s, ph, PhaseKeys(s.pending, ph));
  }

  /** While no handler records more work (`fetchRecords`), `makeRequest`
      does what the pending work calls for, in order: the calls of
      `Requests.PendingEffects` follow the calls queued before, tagged by
      position. */
  lemma MakeRequestFollowsPending(env: Env, s: ConnState)
    requires forall e :: e in PendingEffects(env, s.registry, s.pending) ==> !Fetches(e)
    ensures var t := s.ApplyAll(PendingEffects(env, s.registry, s.pending));
      s.MakeRequest(env) == (Batch(t.sendQueue, t.callbackQueue), t.(sendQueue := [], callbackQueue := [], pending := NoPending))
  {
    var reg, p := s.registry, s.pending;
    var e1 := PhaseEffects(env, reg, p, Queries);
    var e2 := PhaseEffects(env, reg, p, TypeRefreshes);
    var e3 := PhaseEffects(env, reg, p, RecordRefreshes);
    var e4 := PhaseEffects(env, reg, p, TypeFetches);
    var e5 := PhaseEffects(env, reg, p, RecordFetches);
    assert PendingEffects(env, reg, p) == e1 + e2 + e3 + e4 + e5;
    LoopFollows(env, s, Queries);
    var s1 := s.ApplyAll(e1);
    LoopFollows(env, s1, TypeRefreshes);
    var s2 := s1.ApplyAll(e2);
    LoopFollows(env, s2, RecordRefreshes);
    var s3 := s2.ApplyAll(e3);
    LoopFollows(env, s3, TypeFetches);
    var s4 := s3.ApplyAll(e4);
    LoopFollows(env, s4, RecordFetches);
    ApplyAllAppend(s, e1, e2);
    ApplyAllAppend(s, e1 + e2, e3);
    ApplyAllAppend(s, e1 + e2 + e3, e4);
    ApplyAllAppend(s, e1 + e2 + e3 + e4, e5);
  }

  /** The calls of such a request: those queued before, then the calls of
      `Requests.PendingEffects`, tagged by position. */
  lemma MakeRequestCalls(env: Env, s: ConnState)
    requires forall e :: e in PendingEffects(env, s.registry, s.pending) ==> !Fetches(e)
    ensures s.MakeRequest(env).0.calls
         == s.sendQueue + Tagged(|s.sendQueue|, CallsOf(PendingEffects(env, s.registry, s.pending)))
  {
    MakeRequestFollowsPending(env, s);
    ApplyAllQueue(s, PendingEffects(env, s.registry, s.pending));
  }

  /** A call the pending work calls for goes out in the next request,
      tagged with its position. */
  lemma RequestedGoesOut(env: Env, s: ConnState, m: string, args: Json, cb: Option<CallbackId>)
    requires forall e :: e in PendingEffects(env, s.registry, s.pending) ==> !Fetches(e)
    requires Calls(m, args, cb) in PendingEffects(env, s.registry, s.pending)
    ensures var calls := s.MakeRequest(env).0.calls;
      exists i :: |s.sendQueue| <= i < |calls| && calls[i] == Call(m, ArgsOr(args), NatToString(i))
  {
    var effs := PendingEffects(env, s.registry, s.pending);
    CallsOfHas(effs, m, args, cb);
    MakeRequestCalls(env, s);
    TaggedHas(s.sendQueue, CallsOf(effs), Invocation(m, args));
  }

  /** An invocation among those tagged after a queue is in the result,
      tagged with its position. */
  lemma TaggedHas(q: seq<Call>, invs: seq<Invocation>, inv: Invocation)
    requires inv in invs
    ensures var r := q + Tagged(|q|, invs);
      exists i :: |q| <= i < |r| && r[i] == Call(inv.name, ArgsOr(inv.args), NatToString(i))
  {
    var j :| 0 <= j < |invs| && invs[j] == inv;
    TaggedAt(|q|, invs, j);
    var r := q + Tagged(|q|, invs);
    assert r[|q| + j] == Tagged(|q|, invs)[j];
  }

  /** So a record fetch whose type's fetcher is a method name goes out as
      that method's call `{ ids }`, the ids as `Object.keys` lists them. */
  lemma PendingRecordsGoOut(env: Env, s: ConnState, t: TypeId, ids: seq<string>, m: string)
    requires forall e :: e in PendingEffects(env, s.registry, s.pending) ==> !Fetches(e)
    requires Get(s.pending.recordsToFetch, t) == Some(ids) && Fetcher(s.registry, t) == Some(Named(m))
    ensures var calls := s.MakeRequest(env).0.calls;
      exists i :: |s.sendQueue| <= i < |calls| && calls[i] == Call(m, Single("ids", Strs(EnumeratedKeys(ids))), NatToString(i))
  {
    var args := Single("ids", Strs(EnumeratedKeys(ids)));
    PendingRecordsAreRequested(env, s.registry, s.pending, t, ids, m);
    assert ArgsOr(args) == args;
    RequestedGoesOut(env, s, m, args, None);
  }

  /** A callback the fetcher of a pending query adds with `addCallback`
      goes out with the batch, beside the callbacks queued before. */
  lemma QueryCallbackJoinsBatch(env: Env, s: ConnState, queryId: string, qt: TypeId, f: FnId, cb: CallbackId)
    requires forall e :: e in PendingEffects(env, s.registry, s.pending) ==> !Fetches(e)
    requires Get(s.pending.queries, queryId) == Some(qt) && QueryFetcher(s.registry, qt) == Some(f)
    requires AddsCallback(cb) in env.run(f, QueryArg(queryId, qt))
    ensures CallbackEntry("", cb) in s.MakeRequest(env).0.callbacks
  {
    PendingQueriesAreRequested(env, s.registry, s.pending, queryId, qt, f);
    MakeRequestFollowsPending(env, s);
    ApplyAllCallbacks(s, PendingEffects(env, s.registry, s.pending), cb);
  }

  /** A table with one entry is visited at that entry's key alone. */
  lemma SingleKey<V>(k: string, v: V)
    ensures KeysOf(Enumerated([(k, v)])) == [k]
  {
    EnumeratedKeysListed([(k, v)]);
    var ks := KeysOf(Enumerated([(k, v)]));
    assert ks[0] in ks;
  }

  /** An empty table is not visited at all. */
  lemma NoKeys<V>(m: seq<(string, V)>)
    requires m == []
    ensures KeysOf(Enumerated(m)) == []
  {
    EnumeratedKeysListed(m);
  }

  /** A refresher that is a function may ask for the records it refreshes
      with `fetchRecords`, as the handler for threads does. The fetch is
      recorded while `makeRequest` runs, and the loop over record fetches,
      which comes after the loop over refreshes, finds it: the fetcher's
      call goes out in the same request, with the ids asked for. */
  lemma RefreshFetchesInSameBatch(env: Env, s: ConnState, t: TypeId, ids: seq<string>, f: FnId, m: string)
    requires s.pending == NoPending.(recordsToRefresh := [(t, ids)])
    requires Refresher(s.registry, t) == Some(Custom(f)) && Fetcher(s.registry, t) == Some(Named(m))
    requires env.run(f, RefreshList(EnumeratedKeys(ids))) == [FetchesRecords(t, Some(EnumeratedKeys(ids)), None, "", false)]
    ensures var calls := s.MakeRequest(env).0.calls;
      && |calls| == |s.sendQueue| + 1 && calls[..|s.sendQueue|] == s.sendQueue
      && calls[|s.sendQueue|].name == m
      && exists sent :: calls[|s.sendQueue|].args == Single("ids", Strs(sent)) && forall x :: x in sent <==> x in ids
  {
    var merged := MergeFromEnd([], EnumeratedKeys(ids));
    RefreshSends(env, s, t, ids, f, m);
    EnumeratedKeysPermutes(merged);
    EnumeratedKeysPermutes(ids);
    var calls := s.MakeRequest(env).0.calls;
    assert calls[|s.sendQueue|].args == Single("ids", Strs(EnumeratedKeys(merged)));
  }

  /** The calls of that request: those queued before, then the fetcher's. */
  lemma RefreshSends(env: Env, s: ConnState, t: TypeId, ids: seq<string>, f: FnId, m: string)
    requires s.pending == NoPending.(recordsToRefresh := [(t, ids)])
    requires Refresher(s.registry, t) == Some(Custom(f)) && Fetcher(s.registry, t) == Some(Named(m))
    requires env.run(f, RefreshList(EnumeratedKeys(ids))) == [FetchesRecords(t, Some(EnumeratedKeys(ids)), None, "", false)]
    ensures s.MakeRequest(env).0.calls
         == s.sendQueue + [Call(m, Single("ids", Strs(EnumeratedKeys(MergeFromEnd([], EnumeratedKeys(ids))))), NatToString(|s.sendQueue|))]
  {
    var merged := MergeFromEnd([], EnumeratedKeys(ids));
    var s3 := s.Loop(env, Queries).Loop(env, TypeRefreshes).Loop(env, RecordRefreshes);
    RefreshRecordsFetch(env, s, t, ids, f);
    assert s3.sendQueue == s.sendQueue;
    FetchGoesOut(env, s3, t, merged, m);
  }

  /** The first three loops of that request: only the refresh runs, and
      it records the fetch. */
  lemma RefreshRecordsFetch(env: Env, s: ConnState, t: TypeId, ids: seq<string>, f: FnId)
    requires s.pending == NoPending.(recordsToRefresh := [(t, ids)])
    requires Refresher(s.registry, t) == Some(Custom(f)) && Fetcher(s.registry, t).Some?
    requires env.run(f, RefreshList(EnumeratedKeys(ids))) == [FetchesRecords(t, Some(EnumeratedKeys(ids)), None, "", false)]
    ensures s.Loop(env, Queries).Loop(env, TypeRefreshes).Loop(env, RecordRefreshes)
         == s.(pending := s.pending.(recordsToFetch := [(t, MergeFromEnd([], EnumeratedKeys(ids)))]), sendRequested := true)
  {
    IdleLoops(env, s);
    RecordRefreshLoop(env, s, t, ids, f);
  }

  /** Loops over empty tables do nothing. */
  lemma IdleLoops(env: Env, s: ConnState)
    requires s.pending.queries == [] && s.pending.typesToRefresh == []
    ensures s.Loop(env, Queries).Loop(env, TypeRefreshes) == s
  {
    NoKeys(s.pending.queries);
    NoKeys(s.pending.typesToRefresh);
  }

  lemma RecordRefreshLoop(env: Env, s: ConnState, t: TypeId, ids: seq<string>, f: FnId)
    requires s.pending == NoPending.(recordsToRefresh := [(t, ids)])
    requires Refresher(s.registry, t) == Some(Custom(f)) && Fetcher(s.registry, t).Some?
    requires env.run(f, RefreshList(EnumeratedKeys(ids))) == [FetchesRecords(t, Some(EnumeratedKeys(ids)), None, "", false)]
    ensures s.Loop(env, RecordRefreshes)
         == s.(pending := s.pending.(recordsToFetch := [(t, MergeFromEnd([], EnumeratedKeys(ids)))]), sendRequested := true)
  {
    SingleKey(t, ids);
    var fetch := FetchesRecords(t, Some(EnumeratedKeys(ids)), None, "", false);
    assert VisitEffects(env, s.registry, s.pending, RecordRefreshes, t) == [fetch];
    VisitOne(env, s, RecordRefreshes, t);
    ApplyOne(s, fetch);
  }

  /** The last two loops, on tables holding one record fetch alone: its
      call goes out after the calls queued before. */
  lemma FetchGoesOut(env: Env, s: ConnState, t: TypeId, ids: seq<string>, m: string)
    requires s.pending.typesToFetch == [] && s.pending.recordsToFetch == [(t, ids)]
    requires Fetcher(s.registry, t) == Some(Named(m))
    ensures s.Loop(env, TypeFetches).Loop(env, RecordFetches).sendQueue
         == s.sendQueue + [Call(m, Single("ids", Strs(EnumeratedKeys(ids))), NatToString(|s.sendQueue|))]
  {
    NoKeys(KeySet(s.pending.typesToFetch));
    assert PhaseKeys(s.pending, TypeFetches) == [];
    assert s.Loop(env, TypeFetches) == s;
    RecordFetchGoesOut(env, s, t, ids, m);
  }

  lemma RecordFetchGoesOut(env: Env, s: ConnState, t: TypeId, ids: seq<string>, m: string)
    requires s.pending.recordsToFetch == [(t, ids)]
    requires Fetcher(s.registry, t) == Some(Named(m))
    ensures s.Loop(env, RecordFetches).sendQueue
         == s.sendQueue + [Call(m, Single("ids", Strs(EnumeratedKeys(ids))), NatToString(|s.sendQueue|))]
  {
    var args := Single("ids", Strs(EnumeratedKeys(ids)));
    var call := Calls(m, args, None);
    OnlyRecordKey(s.pending, t, ids);
    RecordFetchEffect(env, s.registry, s.pending, t, ids, m);
    VisitOne(env, s, RecordFetches, t);
    ApplyOne(s, call);
    assert ArgsOr(args) == args;
  }

  lemma OnlyRecordKey(p: Pending, t: TypeId, ids: seq<string>)
    requires p.recordsToFetch == [(t, ids)]
    ensures PhaseKeys(p, RecordFetches) == [t]
  {
    SingleKey(t, ids);
  }

  lemma RecordFetchEffect(env: Env, reg: Registry, p: Pending, t: TypeId, ids: seq<string>, m: string)
    requires p.recordsToFetch == [(t, ids)]
    requires Fetcher(reg, t) == Some(Named(m))
    ensures VisitEffects(env, reg, p, RecordFetches, t) == [Calls(m, Single("ids", Strs(EnumeratedKeys(ids))), None)]
  {
    assert Get(p.recordsToFetch, t) == Some(ids);
  }

  lemma VisitOne(env: Env, s: ConnState, ph: Phase, key: string)
    ensures s.VisitAll(env, ph, [key]) == s.ApplyAll(VisitEffects(env, s.registry, s.pending, ph, key))
  {
    assert [key][..0] == [];
  }

  lemma ApplyOne(s: ConnState, e: Effect)
    ensures s.ApplyAll([e]) == s.Apply(e)
  {
    assert [e][..0] == [];
  }

  /** With nothing pending, `makeRequest` hands over the queues as they
      are. */
  lemma MakeRequestIdle(env: Env, s: ConnState)
    requires s.pending == NoPending
    ensures s.MakeRequest(env) == (Batch(s.sendQueue, s.callbackQueue), s.(sendQueue := [], callbackQueue := []))
  {
    forall ph: Phase ensures PhaseKeys(s.pending, ph) == [] {
      EmptyPhase(s.pending, ph);
    }
    assert s.Loop(env, Queries) == s && s.Loop(env, TypeRefreshes) == s && s.Loop(env, RecordRefreshes) == s;
    assert s.Loop(env, TypeFetches) == s && s.Loop(env, RecordFetches) == s;
  }

  // ---- send and receive

  /** A send keeps both invariants. (It may leave a send requested: the
      `callMethod`s of `makeRequest` ask for one.) */
  lemma SendKeepsValid(env: Env, id: ConnId, s: ConnState, a: AuthState)
    requires s.Valid() && a.Inv()
    ensures var r := s.Send(env, id, a);
      r.0.Valid() && r.1.Inv()
  {
    assert a.WillSend(id).1.Inv() by { OperationsKeepInv(a, id, 0, map[]); }
    var t := s.(sendRequested := false);
    if !s.inFlightRequest && a.isAuthenticated && id !in a.failed && s.inFlight.None? {
      assert a.WillSend(id) == (true, a);
      MakeRequestHandsOver(env, t);
      var (b, t') := t.MakeRequest(env);
      assert b.calls != [] ==> BatchValid(b);
      assert s.Send(env, id, a).1 == a;
    }
  }

  /** A request goes out exactly when none is going out already, the
      authority lets the connection send, and there is a batch: the one kept
      from before, or a new non-empty one. What goes out is what the
      connection then keeps as in flight. */
  lemma SendGate(env: Env, id: ConnId, s: ConnState, a: AuthState)
    ensures var r := s.Send(env, id, a);
      r.0.posted != s.posted <==>
        && !s.inFlightRequest && a.isAuthenticated && id !in a.failed
        && (s.inFlight.Some? || s.MakeRequest(env).0.calls != [])
    ensures var r := s.Send(env, id, a);
      r.0.posted != s.posted ==>
        && r.0.inFlight.Some? && r.0.inFlightRequest
        && r.0.posted == s.posted + [r.0.inFlight.value.calls]
  {
    var t := s.(sendRequested := false);
    MakeRequestIgnoresRequest(env, s, false);
    MakeRequestHandsOver(env, t);
  }

  /** A request kept after a failure goes out again with the same calls;
      nothing queued since is added to it. */
  lemma RetrySendsSameBatch(env: Env, id: ConnId, s: ConnState, a: AuthState)
    requires s.inFlight.Some? && !s.inFlightRequest && a.isAuthenticated && id !in a.failed
    ensures var (s', a') := s.Send(env, id, a);
      && s'.posted == s.posted + [s.inFlight.value.calls]
      && s'.inFlight == s.inFlight && s'.inFlightRequest
      && s'.sendQueue == s.sendQueue && s'.callbackQueue == s.callbackQueue && s'.pending == s.pending
      && a' == a
  {
  }

  /** When a send finds nothing to call, the callbacks handed over with the
      empty batch are dropped: they are neither queued, nor in flight, nor
      scheduled. */
  lemma EmptyRequestDropsCallbacks(env: Env, id: ConnId, s: ConnState, a: AuthState)
    requires !s.inFlightRequest && s.inFlight.None? && a.isAuthenticated && id !in a.failed
    requires s.MakeRequest(env).0.calls == []
    ensures var (s', a') := s.Send(env, id, a);
      && s'.callbackQueue == [] && s'.inFlight.None? && !s'.inFlightRequest
      && s'.scheduled == s.scheduled && s'.posted == s.posted
  {
    MakeRequestIgnoresRequest(env, s, false);
    MakeRequestHandsOver(env, s.(sendRequested := false));
  }

  /** `fetchAllRecords` for each type in turn: only the pending tables and
      the send request change, each type that has a fetcher is then
      pending, and the invariant holds. */
  lemma {:induction false} FetchAllFetches(s: ConnState, ts: seq<TypeId>)
    ensures var r := s.FetchAll(ts);
      && (s.sendRequested ==> r.sendRequested)
      && (forall u :: u in s.pending.typesToFetch ==> u in r.pending.typesToFetch)
      && (forall u :: u in ts && Fetcher(s.registry, u).Some? ==> u in r.pending.typesToFetch && r.sendRequested)
    decreases |ts|
  {
    if ts != [] {
      var init := ts[..|ts| - 1];
      FetchAllFetches(s, init);
      assert ts == init + [ts[|ts| - 1]];
    }
  }

  lemma {:induction false} FetchAllKeepsValid(s: ConnState, ts: seq<TypeId>)
    requires s.Valid()
    ensures s.FetchAll(ts).Valid()
    decreases |ts|
  {
    if ts != [] {
      var init := ts[..|ts| - 1];
      FetchAllKeepsValid(s, init);
      FetchRecordsKeepsValid(s.FetchAll(init), ts[|ts| - 1], None, None, "", false);
    }
  }

  /** Handing the responses to their handlers logs what each of them
      reports, in order, and keeps the invariant. */
  lemma {:induction false} DispatchLogs(s: ConnState, data: seq<Response>, calls: seq<Call>)
    ensures s.Dispatch(data, calls).events == s.events + DispatchAll(s.registry, data, calls)
    decreases |data|
  {
    if data != [] {
      var init := data[..|data| - 1];
      DispatchLogs(s, init, calls);
      DispatchLogsOne(s, data, calls);
      DispatchAllSnoc(s.registry, data, calls);
    }
  }

  /** One more key visited. */
  lemma VisitAllNext(env: Env, s: ConnState, ph: Phase, keys: seq<string>, i: nat)
    requires i < |keys|
    ensures s.VisitAll(env, ph, keys[..i + 1]) == s.VisitAll(env, ph, keys[..i]).Visit(env, ph, keys[i])
  {
    assert keys[..i + 1][..i] == keys[..i];
  }

  /** One more response handed to its handler. */
  lemma DispatchNext(s: ConnState, data: seq<Response>, calls: seq<Call>, i: nat)
    requires i < |data|
    ensures var r := s.Dispatch(data[..i], calls);
      var evs := DispatchOne(s.registry, data[i], calls);
      s.Dispatch(data[..i + 1], calls) == r.(events := r.events + evs).FetchAll(Refetches(evs))
  {
    assert data[..i + 1][..i] == data[..i];
  }

  lemma DispatchAllSnoc(reg: Registry, data: seq<Response>, calls: seq<Call>)
    requires data != []
    ensures DispatchAll(reg, data, calls)
         == DispatchAll(reg, data[..|data| - 1], calls) + DispatchOne(reg, data[|data| - 1], calls)
  {
  }

  lemma DispatchLogsOne(s: ConnState, data: seq<Response>, calls: seq<Call>)
    requires data != []
    ensures s.Dispatch(data, calls).events
      == s.Dispatch(data[..|data| - 1], calls).events + DispatchOne(s.registry, data[|data| - 1], calls)
  {
    var r := s.Dispatch(data[..|data| - 1], calls);
    var evs := DispatchOne(s.registry, data[|data| - 1], calls);
    assert s.Dispatch(data, calls) == r.(events := r.events + evs).FetchAll(Refetches(evs));
  }

  lemma {:induction false} DispatchKeepsValid(s: ConnState, data: seq<Response>, calls: seq<Call>)
    requires s.Valid()
    ensures s.Dispatch(data, calls).Valid()
    decreases |data|
  {
    if data != [] {
      var init := data[..|data| - 1];
      DispatchKeepsValid(s, init, calls);
      var r := s.Dispatch(init, calls);
      var evs := DispatchOne(s.registry, data[|data| - 1], calls);
      FetchAllKeepsValid(r.(events := r.events + evs), Refetches(evs));
    }
  }

  /** A handler that can no longer compute changes has every record of its
      type fetched again; what was pending stays pending. */
  lemma {:induction false} DispatchFetches(s: ConnState, data: seq<Response>, calls: seq<Call>)
    ensures var r := s.Dispatch(data, calls);
      && (s.sendRequested ==> r.sendRequested)
      && (forall u :: u in s.pending.typesToFetch ==> u in r.pending.typesToFetch)
      && (forall u :: FetchedAll(u) in DispatchAll(s.registry, data, calls) && Fetcher(s.registry, u).Some? ==>
            u in r.pending.typesToFetch && r.sendRequested)
    decreases |data|
  {
    if data != [] {
      var init := data[..|data| - 1];
      DispatchFetches(s, init, calls);
      var r := s.Dispatch(init, calls);
      var evs := DispatchOne(s.registry, data[|data| - 1], calls);
      DispatchAllSnoc(s.registry, data, calls);
      FetchAllFetches(r.(events := r.events + evs), Refetches(evs));
    }
  }

  /** `receive` dispatches the responses, each handler's refetches included,
      and schedules the callbacks; the queues, the request in flight and the
      invariant are kept. */
  lemma ReceiveKeeps(s: ConnState, data: seq<Response>, callbacks: seq<CallbackEntry>, calls: seq<Call>)
    ensures var r := s.Receive(data, callbacks, calls);
      && r.events == s.events + DispatchAll(s.registry, data, calls)
      && r.scheduled == s.scheduled + FireAll(callbacks, data, calls)
      && r.registry == s.registry && r.sendQueue == s.sendQueue && r.callbackQueue == s.callbackQueue
      && r.inFlight == s.inFlight && r.inFlightRequest == s.inFlightRequest && r.posted == s.posted
    ensures s.Valid() ==> s.Receive(data, callbacks, calls).Valid()
  {
    DispatchLogs(s, data, calls);
    if s.Valid() {
      DispatchKeepsValid(s, data, calls);
    }
  }

  /** A handler that can no longer compute changes (`cannotCalculateChanges`)
      has every record of its type fetched again: after the response is
      received the fetch is pending and a send is requested. */
  lemma RefetchesAreRecorded(s: ConnState, data: seq<Response>, callbacks: seq<CallbackEntry>, calls: seq<Call>, t: TypeId)
    requires FetchedAll(t) in DispatchAll(s.registry, data, calls) && Fetcher(s.registry, t).Some?
    ensures var s' := s.Receive(data, callbacks, calls);
      t in s'.pending.typesToFetch && s'.sendRequested
  {
    DispatchFetches(s, data, calls);
  }

  /** A successful response is dispatched to the handlers, every callback
      of the batch is scheduled with the responses, nothing is left in
      flight, and the authority hears of the success. */
  lemma SuccessReceives(s: ConnState, a: AuthState, data: seq<Response>)
    requires s.inFlight.Some?
    ensures var (s', a') := s.IoDidSucceed(a, Some(data));
      var b := s.inFlight.value;
      && s'.inFlight.None? && a' == a.Succeeded()
      && s'.events == s.events + DispatchAll(s.registry, data, b.calls)
      && s'.scheduled == s.scheduled + FireAll(b.callbacks, data, b.calls)
  {
    var b := s.inFlight.value;
    ReceiveKeeps(s.(events := s.events + []), data, b.callbacks, b.calls);
    assert s.events + [] == s.events;
  }

  lemma SuccessKeepsValid(s: ConnState, a: AuthState, body: Option<seq<Response>>)
    requires s.Valid() && s.inFlight.Some?
    ensures s.IoDidSucceed(a, body).0.Valid()
  {
    var b := s.inFlight.value;
    var diag := if body.None? then [Diagnostic("JMAP.Connection#ioDidSucceed", "Data from server is not JSON.")] else [];
    ReceiveKeeps(s.(events := s.events + diag), body.GetOr([]), b.callbacks, b.calls);
  }

  /** So after a success every callback of the batch is scheduled once, in
      order: a tagged one with exactly the responses carrying its tag and
      the call that tag names, an untagged one with nothing. */
  lemma SuccessFiresEachCallbackOnce(s: ConnState, a: AuthState, data: seq<Response>)
    requires s.Valid() && s.inFlight.Some?
    ensures var b := s.inFlight.value;
      var fs := s.IoDidSucceed(a, Some(data)).0.scheduled[|s.scheduled|..];
      && |fs| == |b.callbacks|
      && (forall i :: 0 <= i < |b.callbacks| ==> fs[i].cb == b.callbacks[i].cb)
      && (forall i :: 0 <= i < |b.callbacks| && b.callbacks[i].tag == "" ==> fs[i].responses.None?)
      && (forall i :: 0 <= i < |b.callbacks| && b.callbacks[i].tag != "" ==>
            && fs[i].responses.Some?
            && (forall x :: x in fs[i].responses.value <==> x in data && x.tag == b.callbacks[i].tag)
            && fs[i].request.Some? && fs[i].request.value.tag == b.callbacks[i].tag)
  {
    var b := s.inFlight.value;
    SuccessReceives(s, a, data);
    var sc := s.IoDidSucceed(a, Some(data)).0.scheduled;
    assert sc == s.scheduled + FireAll(b.callbacks, data, b.calls);
    assert sc[|s.scheduled|..] == FireAll(b.callbacks, data, b.calls);
    assert forall e :: e in b.callbacks ==> IsCallTag(e.tag, |b.calls|);
    CallbacksFireOnce(b.callbacks, data, b.calls);
  }

  /** A body that is not JSON is reported and treated as no responses. */
  lemma NonJsonBodyIsNoResponses(s: ConnState, a: AuthState)
    requires s.inFlight.Some?
    ensures var (s', a') := s.IoDidSucceed(a, None);
      var b := s.inFlight.value;
      && s'.events == s.events + [Diagnostic("JMAP.Connection#ioDidSucceed", "Data from server is not JSON.")]
      && s'.scheduled == s.scheduled + FireAll(b.callbacks, [], b.calls)
  {
    var b := s.inFlight.value;
    var diag := [Diagnostic("JMAP.Connection#ioDidSucceed", "Data from server is not JSON.")];
    ReceiveKeeps(s.(events := s.events + diag), [], b.callbacks, b.calls);
    assert DispatchAll(s.registry, [], b.calls) == [];
  }

  /** The failures that give the request up. */
  predicate Discards(status: int, willRetry: bool) {
    status in {400, 413, 500} || (status !in {401, 404, 429, 503} && !willRetry)
  }

  /** A bad request (400, 413), a server error (500), or any other failure
      on a connection that does not retry: the callbacks run with no
      responses and nothing is left in flight; the authority is not told. */
  lemma FailureDiscards(id: ConnId, s: ConnState, a: AuthState, status: int)
    requires s.Valid() && s.inFlight.Some? && Discards(status, s.willRetry)
    ensures var (s', a') := s.IoDidFail(id, a, status);
      var b := s.inFlight.value;
      && s'.Valid() && s'.inFlight.None? && a' == a
      && s'.scheduled == s.scheduled + FireAll(b.callbacks, [], b.calls)
      && s'.sendQueue == s.sendQueue && s'.callbackQueue == s.callbackQueue
  {
    var b := s.inFlight.value;
    var diag: seq<Event> :=
      if status == 400 || status == 413 then [Diagnostic("JMAP.Connection#ioDidFail", "Bad request made: ")]
      else if status == 500 then [Alerted("FEEDBACK_SERVER_FAILED")]
      else [];
    ReceiveKeeps(s.(events := s.events + diag), [], b.callbacks, b.calls);
    assert s.(events := s.events + []) == s;
  }

  /** Run with no responses, a callback gets nothing or an empty list. */
  lemma DiscardedGetNothing(cbs: seq<CallbackEntry>, calls: seq<Call>)
    ensures forall f :: f in FireAll(cbs, [], calls) ==> f.responses.None? || f.responses == Some([])
  {
    forall f | f in FireAll(cbs, [], calls) ensures f.responses.None? || f.responses == Some([]) {
      var i :| 0 <= i < |cbs| && FireAll(cbs, [], calls)[i] == f;
      assert Matching([], cbs[i].tag) == [];
    }
  }

  /** Lost authentication (401), a moved endpoint (404), rate limiting or
      unavailability (429, 503) and, on a retrying connection, any other
      failure: the request is kept for the next send. After a 401 the
      connection waits for authentication; after a 429, a 503 or a retried
      failure it waits for the back-off, or for authentication when there is
      none. After a 404 it waits for authentication only when it was already
      among the failed: otherwise the authority lets it send, and the next
      send posts the batch again at once (`NotFoundResendsAtOnce`). */
  lemma FailureKeeps(id: ConnId, s: ConnState, a: AuthState, status: int)
    requires s.Valid() && a.Inv() && s.inFlight.Some? && !Discards(status, s.willRetry)
    ensures var (s', a') := s.IoDidFail(id, a, status);
      && s' == s && a'.Inv()
      && (status == 401 ==> !a'.isAuthenticated && id in a'.awaiting)
      && (status == 404 && a.isAuthenticated && !a.isFetchingEndPoints ==>
            a'.isFetchingEndPoints && (id in a.failed ==> id in a'.awaiting))
      && (status != 401 && status != 404 && a.isAuthenticated ==> id in a'.failed)
      && (status != 401 && status != 404 && !a.isAuthenticated ==> id in a'.awaiting)
  {
    if status == 401 {
      var a1 := a.DidLoseAuthentication();
      assert a1.Inv();
      assert a1.WillSend(id).1.Inv() by { OperationsKeepInv(a1, id, 0, map[]); }
    } else if status == 404 {
      var a1 := a.RefindEndpoints().1;
      assert a1.Inv();
      assert a1.WillSend(id).1.Inv() by { OperationsKeepInv(a1, id, 0, map[]); }
    } else {
      var w := if status == 429 || status == 503 then 30 else 0;
      assert a.Failed(id, w).Inv() by { OperationsKeepInv(a, id, w, map[]); }
      if a.isAuthenticated {
        FailureKeepsConnection(a, id, w);
      }
    }
  }

  /** A 404 on an authenticated connection that has not failed starts
      endpoint discovery but does not hold the connection back: when the
      request ends, the send it asks for posts the same batch again while
      discovery is still running, and the connection is not queued as
      awaiting. */
  lemma NotFoundResendsAtOnce(env: Env, id: ConnId, s: ConnState, a: AuthState)
    requires s.Valid() && a.Inv() && s.inFlight.Some? && s.inFlightRequest
    requires a.isAuthenticated && id !in a.failed && !a.isFetchingEndPoints
    ensures var (s1, a1) := s.IoDidFail(id, a, 404);
      var (s3, a3) := s1.IoDidEnd().Send(env, id, a1);
      && a1.isFetchingEndPoints && a1.awaiting == a.awaiting
      && s3.posted == s.posted + [s.inFlight.value.calls]
      && s3.inFlight == s.inFlight && s3.inFlightRequest
  {
  }

  /** After `connectionFailed` on an authenticated authority the connection
      is among the failed ones: the countdown it starts does not end at once. */
  lemma FailureKeepsConnection(a: AuthState, id: ConnId, wait: nat)
    requires a.Inv() && a.isAuthenticated
    ensures id in a.Failed(id, wait).failed
  {
    var a1 := a.(failed := Include(a.failed, id));
    if a1.timeToReconnect == 0 {
      assert a1.NextWait(wait) >= 1;
    }
  }

  /** `ioDidEnd` allows the next request and asks for a send. */
  lemma EndAllowsNextRequest(s: ConnState)
    requires s.Valid()
    ensures s.IoDidEnd().Valid() && !s.IoDidEnd().inFlightRequest && s.IoDidEnd().sendRequested
    ensures s.IoDidEnd().inFlight == s.inFlight
  {
  }

  /** A call made on an idle connection goes out alone at the next send,
      tagged "0", and when the response arrives its callback is scheduled
      once, with the responses tagged "0" and that call. */
  lemma CallRoundTrip(env: Env, id: ConnId, s: ConnState, a: AuthState, name: string, args: Json,
                      cb: CallbackId, data: seq<Response>)
    requires s.Valid() && s.sendQueue == [] && s.callbackQueue == [] && s.inFlight.None? && !s.inFlightRequest
    requires s.pending == NoPending
    requires a.isAuthenticated && id !in a.failed
    ensures var s2 := s.CallMethod(name, args, Some(cb)).Send(env, id, a);
      var call := Call(name, ArgsOr(args), "0");
      && s2.0.posted == s.posted + [[call]]
      && s2.0.inFlight == Some(Batch([call], [CallbackEntry("0", cb)]))
      && s2.0.IoDidSucceed(s2.1, Some(data)).0.events == s.events + DispatchAll(s.registry, data, [call])
      && s2.0.IoDidSucceed(s2.1, Some(data)).0.scheduled == s.scheduled + [Fired(cb, Some(Matching(data, "0")), Some(call))]
  {
    var call := Call(name, ArgsOr(args), "0");
    CallFirstSends(env, id, s, a, name, args, cb);
    var s2 := s.CallMethod(name, args, Some(cb)).Send(env, id, a);
    LoneCallReceives(s2.0, s2.1, call, cb, data);
  }

  /** The second half: the response to a lone call tagged "0" reaches its
      callback. */
  lemma LoneCallReceives(s: ConnState, a: AuthState, call: Call, cb: CallbackId, data: seq<Response>)
    requires call.tag == "0" && s.inFlight == Some(Batch([call], [CallbackEntry("0", cb)]))
    ensures var s' := s.IoDidSucceed(a, Some(data)).0;
      && s'.events == s.events + DispatchAll(s.registry, data, [call])
      && s'.scheduled == s.scheduled + [Fired(cb, Some(Matching(data, "0")), Some(call))]
  {
    SuccessReceives(s, a, data);
    assert ParseNat("0") == Some(0) by { ParseNatToString(0); }
    assert CallAt([call], "0") == Some(call);
    assert FireAll([CallbackEntry("0", cb)], data, [call]) == [Fired(cb, Some(Matching(data, "0")), Some(call))];
  }

  /** The first half of the round trip: the call is posted alone, tagged "0". */
  lemma CallFirstSends(env: Env, id: ConnId, s: ConnState, a: AuthState, name: string, args: Json, cb: CallbackId)
    requires s.sendQueue == [] && s.callbackQueue == [] && s.inFlight.None? && !s.inFlightRequest
    requires s.pending == NoPending
    requires a.isAuthenticated && id !in a.failed
    ensures var s2 := s.CallMethod(name, args, Some(cb)).Send(env, id, a);
      var call := Call(name, ArgsOr(args), "0");
      && s2.0.posted == s.posted + [[call]]
      && s2.0.inFlight == Some(Batch([call], [CallbackEntry("0", cb)]))
      && s2.0.events == s.events && s2.0.scheduled == s.scheduled && s2.0.registry == s.registry
  {
    var s1 := s.CallMethod(name, args, Some(cb));
    var call := Call(name, ArgsOr(args), "0");
    assert NatToString(0) == "0";
    assert s1.sendQueue == [call];
    var t := s1.(sendRequested := false);
    MakeRequestIdle(env, t);
    assert t.MakeRequest(env).0 == Batch([call], [CallbackEntry("0", cb)]);
  }

  // ---- commitChanges

  /** `commitChanges` removes from `changes` exactly the types it has a
      handler for, keeping the rest in order, and reports whether it
      handled any. Only then does it queue the callback, after whatever the
      handlers queued; a change set it has no handler for leaves the
      connection as it was. */
  lemma CommitChangesHandlesExactly(env: Env, s: ConnState, changes: seq<(TypeId, Json)>, cb: Option<CallbackId>)
    requires s.Valid()
    ensures var r := s.CommitChanges(env, changes, cb);
      && r.1.Valid()
      && (forall e :: e in r.2 <==> e in changes && !HandlesCommit(s.registry, e.0))
      && (r.0 <==> exists t :: t in KeysOf(changes) && HandlesCommit(s.registry, t))
      && s.sendQueue <= r.1.sendQueue && s.callbackQueue <= r.1.callbackQueue
      && (r.0 && cb.Some? ==> r.1.callbackQueue[|r.1.callbackQueue| - 1] == CallbackEntry("", cb.value))
      && (!r.0 ==> r.1 == s && r.2 == changes)
  {
    CommitChangesKeepsValid(env, s, changes, cb);
    CommitChangesRest(env, s, changes, cb);
    CommitChangesQueues(env, s, changes, cb);
    var r := s.CommitChanges(env, changes, cb);
    if !r.0 {
      var order := CommitVisit(s.registry, changes);
      CommitVisitMembers(s.registry, changes);
      NothingHandled(env, s.registry, changes, order);
      WithoutNothing(changes);
    }
  }

  /** What is left of the change set, and whether anything was handled. */
  lemma CommitChangesRest(env: Env, s: ConnState, changes: seq<(TypeId, Json)>, cb: Option<CallbackId>)
    ensures var r := s.CommitChanges(env, changes, cb);
      && (forall e :: e in r.2 <==> e in changes && !HandlesCommit(s.registry, e.0))
      && (r.0 <==> exists t :: t in KeysOf(changes) && HandlesCommit(s.registry, t))
  {
    var handled := HandledTypes(s.registry, KeysOf(changes));
    WithoutMembers(changes, handled);
    forall e | e in changes
      ensures e.0 in handled <==> HandlesCommit(s.registry, e.0)
    {
      var i :| 0 <= i < |changes| && changes[i] == e;
      assert KeysOf(changes)[i] == e.0;
    }
    if handled != {} {
      var t :| t in handled;
    }
  }

  /** The handlers' calls and callbacks are queued after those already
      waiting, and the callback of `commitChanges` after them all. */
  lemma CommitChangesQueues(env: Env, s: ConnState, changes: seq<(TypeId, Json)>, cb: Option<CallbackId>)
    ensures var r := s.CommitChanges(env, changes, cb);
      && s.sendQueue <= r.1.sendQueue && s.callbackQueue <= r.1.callbackQueue
      && (r.0 && cb.Some? ==> r.1.callbackQueue[|r.1.callbackQueue| - 1] == CallbackEntry("", cb.value))
  {
    var effs := CommitEffects(env, s.registry, changes, CommitVisit(s.registry, changes));
    ApplyAllKeeps(s, effs);
    var q := s.ApplyAll(effs).callbackQueue;
    PushAfterAll(q, cb);
    PrefixTrans(s.callbackQueue, q, PushCallback(q, "", cb));
  }

  /** Queuing a callback to run after all the handlers only appends it. */
  lemma PushAfterAll(q: seq<CallbackEntry>, cb: Option<CallbackId>)
    ensures q <= PushCallback(q, "", cb)
    ensures cb.Some? ==> PushCallback(q, "", cb)[|PushCallback(q, "", cb)| - 1] == CallbackEntry("", cb.value)
  {
  }

  lemma CommitChangesKeepsValid(env: Env, s: ConnState, changes: seq<(TypeId, Json)>, cb: Option<CallbackId>)
    requires s.Valid()
    ensures s.CommitChanges(env, changes, cb).1.Valid()
  {
    var effs := CommitEffects(env, s.registry, changes, CommitVisit(s.registry, changes));
    ApplyAllKeeps(s, effs);
    PushAfterAllKeepsValid(s.ApplyAll(effs), cb);
  }

  /** A callback queued to run after all the handlers keeps the queues fitting. */
  lemma PushAfterAllKeepsValid(s: ConnState, cb: Option<CallbackId>)
    requires s.Valid()
    ensures s.(callbackQueue := PushCallback(s.callbackQueue, "", cb)).Valid()
  {
    assert CallbacksFit(PushCallback(s.callbackQueue, "", cb), |s.sendQueue|);
  }

  /** When no type visited has a handler, nothing is done. */
  lemma {:induction false} NothingHandled(env: Env, reg: Registry, changes: seq<(TypeId, Json)>, order: seq<TypeId>)
    requires forall t :: t in order ==> !HandlesCommit(reg, t)
    ensures CommitEffects(env, reg, changes, order) == []
    decreases |order|
  {
    if order != [] {
      var init := order[..|order| - 1];
      assert order == init + [order[|order| - 1]];
      NothingHandled(env, reg, changes, init);
    }
  }

  /** The loop visits the types of the change set and no others. */
  lemma CommitVisitMembers(reg: Registry, m0: seq<(TypeId, Json)>)
    ensures forall t :: t in CommitVisit(reg, m0) <==> t in KeysOf(m0)
  {
    EnumeratedKeysListed(m0);
    SortedPermutes(PrecedenceTable(reg), ChangeTypes(m0));
    ReverseMembers(Sorted(PrecedenceTable(reg), ChangeTypes(m0)));
  }

  lemma ReverseMembers<T>(s: seq<T>)
    ensures forall x :: x in Reverse(s) <==> x in s
  {
    var r := Reverse(s);
    forall x ensures x in r <==> x in s {
      if x in s {
        var i :| 0 <= i < |s| && s[i] == x;
        assert r[|s| - 1 - i] == x;
      }
      if x in r {
        var i :| 0 <= i < |r| && r[i] == x;
        assert s[|s| - 1 - i] == x;
      }
    }
  }

  /** The loop of `commitChanges` visits every type of the change set, each
      once, from the end of the sorted keys. */
  lemma CommitOrderFacts(reg: Registry, m0: seq<(TypeId, Json)>)
    requires Distinct(KeysOf(m0))
    ensures CommitVisit(reg, m0) == Reverse(Sorted(PrecedenceTable(reg), ChangeTypes(m0)))
    ensures |CommitVisit(reg, m0)| == |m0|
    ensures Distinct(Sorted(PrecedenceTable(reg), ChangeTypes(m0)))
    ensures HandledTypes(reg, CommitVisit(reg, m0)) == HandledTypes(reg, KeysOf(m0))
  {
    EnumeratedKeysListed(m0);
    EnumeratedDistinctKeys(m0);
    SortedPermutes(PrecedenceTable(reg), ChangeTypes(m0));
    CommitVisitMembers(reg, m0);
  }

  lemma ReverseDistinct<T>(s: seq<T>)
    requires Distinct(s)
    ensures Distinct(Reverse(s))
  {
    var r := Reverse(s);
    forall i, j | 0 <= i < j < |r| ensures r[i] != r[j] {
      assert r[i] == s[|s| - 1 - i] && r[j] == s[|s| - 1 - j];
    }
  }

  /** A turn of the loop reads the change of its type as it was passed in:
      no type is visited after it was deleted. */
  lemma CommitStepReads(reg: Registry, m0: seq<(TypeId, Json)>, order: seq<TypeId>, k: nat)
    requires Distinct(order) && k < |order|
    ensures Get(Without(m0, HandledTypes(reg, order[..k])), order[k]) == Get(m0, order[k])
  {
    DistinctNotBefore(order, k);
    GetWithout(m0, HandledTypes(reg, order[..k]), order[k]);
  }

  /** A turn's effects follow the effects of the earlier turns. */
  lemma CommitStepCalls(env: Env, reg: Registry, m0: seq<(TypeId, Json)>, order: seq<TypeId>, k: nat)
    requires k < |order|
    ensures CommitEffects(env, reg, m0, order[..k + 1])
         == CommitEffects(env, reg, m0, order[..k]) + CommitType(env, reg, order[k], Get(m0, order[k]).GetOr(JNull)).0
  {
    ConcatMapSnoc((t: TypeId) => CommitType(env, reg, t, Get(m0, t).GetOr(JNull)).0, order, k);
  }

  /** A handled type is deleted from the change set once; an unhandled one
      stays. */
  lemma CommitStepHandled(reg: Registry, m0: seq<(TypeId, Json)>, order: seq<TypeId>, k: nat)
    requires k < |order|
    ensures HandlesCommit(reg, order[k]) ==>
      HandledTypes(reg, order[..k + 1]) == HandledTypes(reg, order[..k]) + {order[k]}
    ensures HandlesCommit(reg, order[k]) ==>
      Remove(Without(m0, HandledTypes(reg, order[..k])), order[k]) == Without(m0, HandledTypes(reg, order[..k + 1]))
    ensures !HandlesCommit(reg, order[k]) ==> HandledTypes(reg, order[..k + 1]) == HandledTypes(reg, order[..k])
  {
    HandledStep(reg, order, k);
    if HandlesCommit(reg, order[k]) {
      RemoveFromWithout(m0, HandledTypes(reg, order[..k]), order[k]);
    }
  }

  /** The state after `k + 1` turns of the loop is the state after `k`
      turns with the next type's handlers run. */
  lemma CommitStepTurn(env: Env, s0: ConnState, m0: seq<(TypeId, Json)>, order: seq<TypeId>, k: nat)
    requires k < |order|
    ensures s0.ApplyAll(CommitEffects(env, s0.registry, m0, order[..k]))
              .ApplyAll(CommitType(env, s0.registry, order[k], Get(m0, order[k]).GetOr(JNull)).0)
         == s0.ApplyAll(CommitEffects(env, s0.registry, m0, order[..k + 1]))
  {
    var reg := s0.registry;
    CommitStepCalls(env, reg, m0, order, k);
    ApplyAllAppend(s0, CommitEffects(env, reg, m0, order[..k]),
                   CommitType(env, reg, order[k], Get(m0, order[k]).GetOr(JNull)).0);
  }

  /** What the loop has done after the first `k` turns of `order`. */
  function TurnsDone(env: Env, s: ConnState, m0: seq<(TypeId, Json)>, order: seq<TypeId>, k: nat)
    : (bool, ConnState, seq<(TypeId, Json)>)
    requires k <= |order|
  {
    (HandledTypes(s.registry, order[..k]) != {}, s.ApplyAll(CommitEffects(env, s.registry, m0, order[..k])),
     Without(m0, HandledTypes(s.registry, order[..k])))
  }


  /** After `k` turns over any `types` without repeats, the loop has queued
      the calls of the last `k` of them, last first, and deleted those that
      are handled. */
  lemma {:induction false} CommitTurnsFollow(env: Env, s: ConnState, m0: seq<(TypeId, Json)>, types: seq<TypeId>, k: nat)
    requires Distinct(types) && k <= |types|
    ensures s.CommitTurns(env, m0, types, k) == TurnsDone(env, s, m0, Reverse(types), k)
  {
    CommitTurnsNone(env, s, m0, types);
    var j := 0;
    while j < k
      invariant j <= k
      invariant s.CommitTurns(env, m0, types, j) == TurnsDone(env, s, m0, Reverse(types), j)
    {
      j := j + 1;
      calc {
        s.CommitTurns(env, m0, types, j);
        { CommitTurnsUnfold(env, s, m0, types, j); }
        CommitTurn(env, s.registry, s.CommitTurns(env, m0, types, j - 1), types[|types| - j]);
        CommitTurn(env, s.registry, TurnsDone(env, s, m0, Reverse(types), j - 1), types[|types| - j]);
        { CommitTurnAdvances(env, s, m0, types, j); }
        TurnsDone(env, s, m0, Reverse(types), j);
      }
    }
  }

  /** One turn of the loop, unfolded. */
  lemma CommitTurnsUnfold(env: Env, s: ConnState, m0: seq<(TypeId, Json)>, types: seq<TypeId>, k: nat)
    requires 0 < k <= |types|
    ensures s.CommitTurns(env, m0, types, k) == CommitTurn(env, s.registry, s.CommitTurns(env, m0, types, k - 1), types[|types| - k])
  {
  }

  /** A turn of `commitChanges`' loop taken after `k` turns is turn `k + 1`. */
  lemma CommitTurnNext(env: Env, s0: ConnState, m0: seq<(TypeId, Json)>, types: seq<TypeId>, k: nat,
                       before: (bool, ConnState, seq<(TypeId, Json)>), after: (bool, ConnState, seq<(TypeId, Json)>))
    requires k < |types|
    requires before == s0.CommitTurns(env, m0, types, k)
    requires after == CommitTurn(env, s0.registry, before, types[|types| - (k + 1)])
    ensures after == s0.CommitTurns(env, m0, types, k + 1)
  {
    CommitTurnsUnfold(env, s0, m0, types, k + 1);
  }

  /** The parts of one turn, for a turn whose committer returned `ct`. */
  lemma CommitTurnParts(env: Env, reg: Registry, prev: (bool, ConnState, seq<(TypeId, Json)>), t: TypeId,
                        ct: (seq<Effect>, bool))
    requires ct == CommitType(env, reg, t, Get(prev.2, t).GetOr(JNull))
    ensures CommitTurn(env, reg, prev, t) == (prev.0 || ct.1, prev.1.ApplyAll(ct.0), if ct.1 then Remove(prev.2, t) else prev.2)
  {
  }

  /** Before its first turn the loop has done nothing. */
  lemma CommitTurnsNone(env: Env, s: ConnState, m0: seq<(TypeId, Json)>, types: seq<TypeId>)
    ensures s.CommitTurns(env, m0, types, 0) == TurnsDone(env, s, m0, Reverse(types), 0)
  {
    assert Reverse(types)[..0] == [];
    WithoutNothing(m0);
  }

  /** The `k`-th turn over `types` visits the `k`-th of their reverse and
      extends what the loop has done by it. */
  lemma CommitTurnAdvances(env: Env, s: ConnState, m0: seq<(TypeId, Json)>, types: seq<TypeId>, k: nat)
    requires Distinct(types) && 0 < k <= |types|
    ensures CommitTurn(env, s.registry, TurnsDone(env, s, m0, Reverse(types), k - 1), types[|types| - k])
         == TurnsDone(env, s, m0, Reverse(types), k)
  {
    var j := k - 1;
    ReverseDistinct(types);
    assert types[|types| - k] == Reverse(types)[j];
    CommitOrderAdvances(env, s, m0, Reverse(types), j);
    assert j + 1 == k;
  }

  /** One more turn extends what the loop has done by the next type of
      `order`. */
  lemma CommitOrderAdvances(env: Env, s: ConnState, m0: seq<(TypeId, Json)>, order: seq<TypeId>, k: nat)
    requires Distinct(order) && k < |order|
    ensures CommitTurn(env, s.registry, TurnsDone(env, s, m0, order, k), order[k]) == TurnsDone(env, s, m0, order, k + 1)
  {
    var reg := s.registry;
    CommitStepReads(reg, m0, order, k);
    CommitStepHandled(reg, m0, order, k);
    CommitStepTurn(env, s, m0, order, k);
  }

  /** The loop keeps the connection's invariant. */
  lemma CommitTurnsKeepValid(env: Env, s: ConnState, m0: seq<(TypeId, Json)>, k: nat)
    requires s.Valid() && Distinct(KeysOf(m0)) && k <= |m0|
    ensures var r := s.CommitTurns(env, m0, Sorted(PrecedenceTable(s.registry), ChangeTypes(m0)), k);
      r.1.Valid() && r.1.registry == s.registry
  {
    var types := Sorted(PrecedenceTable(s.registry), ChangeTypes(m0));
    CommitOrderFacts(s.registry, m0);
    CommitTurnsFollow(env, s, m0, types, k);
    ApplyAllKeeps(s, CommitEffects(env, s.registry, m0, Reverse(types)[..k]));
  }

  /** The whole loop over the sorted keys, followed by queuing the callback
      when a type was handled, is `commitChanges`. */
  lemma CommitTurnsComplete(env: Env, s: ConnState, m0: seq<(TypeId, Json)>, cb: Option<CallbackId>)
    requires Distinct(KeysOf(m0))
    ensures var (any, s', rest) := s.CommitTurns(env, m0, Sorted(PrecedenceTable(s.registry), ChangeTypes(m0)), |m0|);
      s.CommitChanges(env, m0, cb)
      == (any, s'.(callbackQueue := if any then PushCallback(s'.callbackQueue, "", cb) else s'.callbackQueue), rest)
  {
    var types := Sorted(PrecedenceTable(s.registry), ChangeTypes(m0));
    CommitOrderFacts(s.registry, m0);
    CommitTurnsFollow(env, s, m0, types, |m0|);
    assert Reverse(types)[..|m0|] == CommitVisit(s.registry, m0);
  }
  /** So `commitChanges` is its loop followed by the callback, and what it
      leaves behind is a valid state and a change set with distinct keys. */
  lemma CommitChangesByTurns(env: Env, s: ConnState, m0: seq<(TypeId, Json)>, cb: Option<CallbackId>)
    requires s.Valid() && Distinct(KeysOf(m0))
    ensures var (any, s', rest) := s.CommitTurns(env, m0, Sorted(PrecedenceTable(s.registry), ChangeTypes(m0)), |m0|);
      var r := s.CommitChanges(env, m0, cb);
      && r == (any, s'.(callbackQueue := if any then PushCallback(s'.callbackQueue, "", cb) else s'.callbackQueue), rest)
      && r.1.Valid() && Distinct(KeysOf(r.2))
  {
    CommitChangesKeepsValid(env, s, m0, cb);
    CommitTurnsComplete(env, s, m0, cb);
    WithoutKeepsDistinct(m0, HandledTypes(s.registry, KeysOf(m0)));
  }


  /** The types handled after one more turn of the loop. */
  lemma HandledStep(reg: Registry, order: seq<TypeId>, k: nat)
    requires k < |order|
    ensures HandledTypes(reg, order[..k + 1])
         == HandledTypes(reg, order[..k]) + (if HandlesCommit(reg, order[k]) then {order[k]} else {})
  {
    assert order[..k + 1] == order[..k] + [order[k]];
  }

  /** With a committer named for every type, one call per type is made, in
      the order the types are visited, each carrying its own change. */
  lemma NamedCommittersCallInOrder(env: Env, reg: Registry, changes: seq<(TypeId, Json)>, order: seq<TypeId>)
    requires forall t :: t in order ==> Committer(reg, t).Some? && Committer(reg, t).value.Named?
    ensures var effs := CommitEffects(env, reg, changes, order);
      && |effs| == |order|
      && forall k :: 0 <= k < |order| ==>
           effs[k] == Calls(Committer(reg, order[k]).value.methodName,
                            env.setRequest(Get(changes, order[k]).GetOr(JNull)), None)
  {
    var f := (t: TypeId) => CommitType(env, reg, t, Get(changes, t).GetOr(JNull)).0;
    var g := (t: TypeId) requires Committer(reg, t).Some? && Committer(reg, t).value.Named? =>
      Calls(Committer(reg, t).value.methodName, env.setRequest(Get(changes, t).GetOr(JNull)), None);
    var g' := (t: TypeId) =>
      if Committer(reg, t).Some? && Committer(reg, t).value.Named? then g(t) else Calls("", JNull, None);
    forall i | 0 <= i < |order| ensures f(order[i]) == [g'(order[i])] {
      assert order[i] in order;
    }
    ConcatMapSingletons(f, g', order);
    forall k | 0 <= k < |order|
      ensures CommitEffects(env, reg, changes, order)[k] ==
        Calls(Committer(reg, order[k]).value.methodName, env.setRequest(Get(changes, order[k]).GetOr(JNull)), None)
    {
      assert order[k] in order;
    }
  }

  // ---- hasRequests

  /** `hasRequests()` as written overlooks a fetch of all records of a
      type: a connection with such a fetch pending reports no requests,
      yet its next send has a call to make. */
  lemma HasRequestsMissesTypeFetch(env: Env)
    ensures var s := ConnSpec.Initial(NoTables, true).Handle("Mailbox", [Fetch(Named("getMailboxes"))]);
      var (handled, s1) := s.FetchRecords("Mailbox", None, None, "", false);
      && handled && !s1.HasRequests()
      && s1.MakeRequest(env).0.calls == [Call("getMailboxes", EmptyObject, "0")]
  {
    var s := ConnSpec.Initial(NoTables, true).Handle("Mailbox", [Fetch(Named("getMailboxes"))]);
    assert RegisterAll(s.registry, "Mailbox", []) == s.registry;
    assert Fetcher(s.registry, "Mailbox") == Some(Named("getMailboxes"));
    var (handled, s1) := s.FetchRecords("Mailbox", None, None, "", false);
    var p := s1.pending;
    assert p == NoPending.(typesToFetch := ["Mailbox"]);
    NoKeys(p.queries);
    NoKeys(p.typesToRefresh);
    NoKeys(p.recordsToRefresh);
    NoKeys(p.recordsToFetch);
    assert KeySet(["Mailbox"]) == [("Mailbox", true)];
    SingleKey("Mailbox", true);
    assert PhaseKeys(p, TypeFetches) == ["Mailbox"];
    var s3 := s1.Loop(env, Queries).Loop(env, TypeRefreshes).Loop(env, RecordRefreshes);
    assert s3 == s1;
    var call := Calls("getMailboxes", JNull, None);
    assert VisitEffects(env, s1.registry, p, TypeFetches, "Mailbox") == [call];
    VisitOne(env, s1, TypeFetches, "Mailbox");
    ApplyOne(s1, call);
    var s4 := s1.Loop(env, TypeFetches);
    assert s4 == s1.CallMethod("getMailboxes", JNull, None);
    assert s4.Loop(env, RecordFetches) == s4;
    assert NatToString(0) == "0";
  }

  /** `hasRequests()` as intended, counting every pending table: when it is
      false, nothing is in flight and the next send has no call to make. */
  lemma NoRequestsNothingToSend(env: Env, s: ConnState)
    requires !s.HasAnyRequests()
    ensures s.inFlight.None? && s.MakeRequest(env).0.calls == []
  {
    assert s.pending == NoPending;
    MakeRequestIdle(env, s);
  }
}
