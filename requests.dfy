/** What a connection has queued besides explicit method calls, and what
    `makeRequest` and `commitChanges` do for it. The pending tables are the
    five objects `_queriesToFetch`, `_typesToRefresh`, `_recordsToRefresh`,
    `_typesToFetch` and `_recordsToFetch`, each kept in insertion order;
    `makeRequest` walks them with `for ... in`, so in the order
    `OwnKeys.Enumerated` gives, and `Object.keys` lists the ids of a record
    table the same way.

    A handler that is a function of the application's is code this model
    cannot see: `Env.run` gives, for each such function and the arguments it
    is called with, what it does to the connection while it runs, in order:
    `callMethod`, `addCallback` and `fetchRecords` calls (`Effect`).
    `makeSetRequest` relies on `Object.zip` and `Object.filter`, which are
    not part of this model, and is `Env.setRequest`. */
module Requests {
  import opened Options
  import opened Json
  import opened Ordered
  import opened Registry
  import opened Protocol
  import opened CommitOrder
  import opened OwnKeys

  /** How a function handler is called. */
  datatype HandlerInput =
    | QueryArg(queryId: string, queryType: TypeId)            // handler.call( this, req )
    | RefreshAll(state: string)                               // handler.call( this, null, state )
    | RefreshList(ids: seq<string>)                           // handler.call( this, ids )
    | FetchAll                                                // handler.call( this, null )
    | FetchList(ids: seq<string>)                             // handler.call( this, ids )
    | CommitArg(change: Json)                                 // handler.call( this, change )
    | CreateArg(storeKeys: Option<Json>, records: Option<Json>)
    | UpdateArg(storeKeys: Option<Json>, records: Option<Json>, changes: Option<Json>)
    | DestroyArg(storeKeys: Option<Json>, recordIds: Option<Json>)

  /** One call a handler function makes back into the connection. */
  datatype Effect =
    | Calls(name: string, args: Json, cb: Option<CallbackId>)     // this.callMethod( name, args, callback )
    | AddsCallback(callback: CallbackId)                           // this.addCallback( callback )
    | FetchesRecords(type_: TypeId, ids: Option<seq<string>>, cb: Option<CallbackId>, state: string, refresh: bool)
                                                                   // this.fetchRecords( Type, ids, callback, state, refresh )

  datatype Env = Env(run: (FnId, HandlerInput) -> seq<Effect>, setRequest: Json -> Json)

  /** Whether an effect can change the pending tables. */
  predicate Fetches(e: Effect) {
    e.FetchesRecords?
  }

  datatype Pending = Pending(
    queries: seq<(string, TypeId)>,              // query id -> guid of the query's class
    typesToRefresh: seq<(TypeId, string)>,       // type -> state to refresh from
    recordsToRefresh: seq<(TypeId, seq<string>)>,
    typesToFetch: seq<TypeId>,
    recordsToFetch: seq<(TypeId, seq<string>)>)

  const NoPending: Pending := Pending([], [], [], [], [])

  /** The three tables a pending entry may need a handler from. */
  datatype Need = NeedQuery | NeedRefresh | NeedFetch

  predicate Has(reg: Registry, n: Need, t: TypeId) {
    match n
    case NeedQuery => QueryFetcher(reg, t).Some?
    case NeedRefresh => Refresher(reg, t).Some?
    case NeedFetch => Fetcher(reg, t).Some?
  }

  /** Every type of `ts` has a handler in table `n`. */
  predicate AllHave(reg: Registry, n: Need, ts: seq<TypeId>)
    decreases |ts|
  {
    ts == [] || (Has(reg, n, ts[|ts| - 1]) && AllHave(reg, n, ts[..|ts| - 1]))
  }

  lemma {:induction false} AllHaveMeans(reg: Registry, n: Need, ts: seq<TypeId>)
    ensures AllHave(reg, n, ts) <==> forall t :: t in ts ==> Has(reg, n, t)
    decreases |ts|
  {
    if ts != [] {
      var init := ts[..|ts| - 1];
      AllHaveMeans(reg, n, init);
      assert ts == init + [ts[|ts| - 1]];
    }
  }

  /** Every pending entry has the handler `makeRequest` will call for it:
      `fetchRecords` and `fetchQuery` only record work they have a handler
      for, and registrations never remove one. */
  predicate Served(reg: Registry, p: Pending) {
    && AllHave(reg, NeedQuery, ValuesOf(p.queries))
    && AllHave(reg, NeedRefresh, KeysOf(p.typesToRefresh))
    && AllHave(reg, NeedRefresh, KeysOf(p.recordsToRefresh))
    && AllHave(reg, NeedFetch, p.typesToFetch)
    && AllHave(reg, NeedFetch, KeysOf(p.recordsToFetch))
  }

  /** `Served`, entry by entry. */
  predicate ServedEntries(reg: Registry, p: Pending) {
    && (forall e :: e in p.queries ==> QueryFetcher(reg, e.1).Some?)
    && (forall e :: e in p.typesToRefresh ==> Refresher(reg, e.0).Some?)
    && (forall e :: e in p.recordsToRefresh ==> Refresher(reg, e.0).Some?)
    && (forall t :: t in p.typesToFetch ==> Fetcher(reg, t).Some?)
    && (forall e :: e in p.recordsToFetch ==> Fetcher(reg, e.0).Some?)
  }

  lemma KeysHave<V>(reg: Registry, n: Need, m: seq<(TypeId, V)>)
    ensures AllHave(reg, n, KeysOf(m)) <==> forall e :: e in m ==> Has(reg, n, e.0)
  {
    AllHaveMeans(reg, n, KeysOf(m));
    if forall e :: e in m ==> Has(reg, n, e.0) {
      forall t | t in KeysOf(m) ensures Has(reg, n, t) {
        var i :| 0 <= i < |m| && KeysOf(m)[i] == t;
        assert m[i] in m;
      }
    }
    if AllHave(reg, n, KeysOf(m)) {
      forall e | e in m ensures Has(reg, n, e.0) {
        var i :| 0 <= i < |m| && m[i] == e;
        assert KeysOf(m)[i] in KeysOf(m);
      }
    }
  }

  lemma ValuesHave<K>(reg: Registry, n: Need, m: seq<(K, TypeId)>)
    ensures AllHave(reg, n, ValuesOf(m)) <==> forall e :: e in m ==> Has(reg, n, e.1)
  {
    AllHaveMeans(reg, n, ValuesOf(m));
    if forall e :: e in m ==> Has(reg, n, e.1) {
      forall t | t in ValuesOf(m) ensures Has(reg, n, t) {
        var i :| 0 <= i < |m| && ValuesOf(m)[i] == t;
        assert m[i] in m;
      }
    }
    if AllHave(reg, n, ValuesOf(m)) {
      forall e | e in m ensures Has(reg, n, e.1) {
        var i :| 0 <= i < |m| && m[i] == e;
        assert ValuesOf(m)[i] in ValuesOf(m);
      }
    }
  }

  lemma ServedMeans(reg: Registry, p: Pending)
    ensures Served(reg, p) <==> ServedEntries(reg, p)
  {
    ValuesHave(reg, NeedQuery, p.queries);
    KeysHave(reg, NeedRefresh, p.typesToRefresh);
    KeysHave(reg, NeedRefresh, p.recordsToRefresh);
    AllHaveMeans(reg, NeedFetch, p.typesToFetch);
    KeysHave(reg, NeedFetch, p.recordsToFetch);
  }

  lemma ServedExtends(reg: Registry, reg': Registry, p: Pending)
    requires Served(reg, p) && Extends(reg, reg')
    ensures Served(reg', p)
  {
    ServedMeans(reg, p);
    ServedMeans(reg', p);
    forall t: TypeId ensures
      && (Fetcher(reg, t).Some? ==> Fetcher(reg', t).Some?)
      && (Refresher(reg, t).Some? ==> Refresher(reg', t).Some?)
      && (QueryFetcher(reg, t).Some? ==> QueryFetcher(reg', t).Some?)
    {
      ExtendsKeepsHandlers(reg, reg', t);
    }
  }

  /** The five loops of `makeRequest`, in their order: queries, whole-type
      refreshes, record refreshes, whole-type fetches, record fetches. */
  datatype Phase = Queries | TypeRefreshes | RecordRefreshes | TypeFetches | RecordFetches

  /** The keys a loop visits, in `for ... in` order, as the table is when
      the loop starts. */
  function PhaseKeys(p: Pending, ph: Phase): seq<string> {
    match ph
    case Queries => KeysOf(Enumerated(p.queries))
    case TypeRefreshes => KeysOf(Enumerated(p.typesToRefresh))
    case RecordRefreshes => KeysOf(Enumerated(p.recordsToRefresh))
    case TypeFetches => EnumeratedKeys(p.typesToFetch)
    case RecordFetches => KeysOf(Enumerated(p.recordsToFetch))
  }

  /** What one iteration does for `key`, with the tables as they are at
      that moment: a handler given as a method name is one `callMethod`, a
      function handler does what it does, and a query whose class has no
      fetcher is skipped. A record table's ids are sent as `Object.keys`
      lists them. */
  function VisitEffects(env: Env, reg: Registry, p: Pending, ph: Phase, key: string): seq<Effect> {
    match ph
    case Queries =>
      (match Get(p.queries, key)
       case Some(qt) =>
         (match QueryFetcher(reg, qt)
          case Some(f) => env.run(f, QueryArg(key, qt))
          case None => [])
       case None => [])      // `key` is a key of the table
    case TypeRefreshes =>
      var state := Get(p.typesToRefresh, key).GetOr("");
      (match Refresher(reg, key)
       case Some(Named(m)) => [Calls(m, Single("sinceState", JStr(state)), None)]
       case Some(Custom(f)) => env.run(f, RefreshAll(state))
       case None => [])      // excluded by Served
    case RecordRefreshes =>
      var ids := EnumeratedKeys(Get(p.recordsToRefresh, key).GetOr([]));
      (match Refresher(reg, key)
       case Some(Named(m)) => [Calls(m, Single("ids", Strs(ids)), None)]
       case Some(Custom(f)) => env.run(f, RefreshList(ids))
       case None => [])      // excluded by Served
    case TypeFetches =>
      (match Fetcher(reg, key)
       case Some(Named(m)) => [Calls(m, JNull, None)]      // callMethod( handler ): no arguments
       case Some(Custom(f)) => env.run(f, FetchAll)
       case None => [])      // excluded by Served
    case RecordFetches =>
      var ids := EnumeratedKeys(Get(p.recordsToFetch, key).GetOr([]));
      (match Fetcher(reg, key)
       case Some(Named(m)) => [Calls(m, Single("ids", Strs(ids)), None)]
       case Some(Custom(f)) => env.run(f, FetchList(ids))
       case None => [])      // excluded by Served
  }

  /** What one loop does over its table, when no handler changes the
      tables on the way. */
  function PhaseEffects(env: Env, reg: Registry, p: Pending, ph: Phase): seq<Effect> {
    ConcatMap(Visitor(env, reg, p, ph), PhaseKeys(p, ph))
  }

  /** `VisitEffects` for each key, with the tables fixed. */
  function Visitor(env: Env, reg: Registry, p: Pending, ph: Phase): string -> seq<Effect> {
    (k: string) => VisitEffects(env, reg, p, ph, k)
  }

  /** What the five loops do, in order, when no handler changes the tables
      on the way (`ConnProps.MakeRequestFollowsPending`). */
  function PendingEffects(env: Env, reg: Registry, p: Pending): seq<Effect> {
    PhaseEffects(env, reg, p, Queries) + PhaseEffects(env, reg, p, TypeRefreshes)
    + PhaseEffects(env, reg, p, RecordRefreshes) + PhaseEffects(env, reg, p, TypeFetches)
    + PhaseEffects(env, reg, p, RecordFetches)
  }

  /** A key is visited exactly when it is a key of the loop's table. */
  lemma PhaseKeysListed(p: Pending, ph: Phase, key: string)
    ensures key in PhaseKeys(p, ph) <==>
      match ph
      case Queries => Get(p.queries, key).Some?
      case TypeRefreshes => Get(p.typesToRefresh, key).Some?
      case RecordRefreshes => Get(p.recordsToRefresh, key).Some?
      case TypeFetches => key in p.typesToFetch
      case RecordFetches => Get(p.recordsToFetch, key).Some?
  {
    match ph
    case Queries => EnumeratedKeysListed(p.queries);
    case TypeRefreshes => EnumeratedKeysListed(p.typesToRefresh);
    case RecordRefreshes => EnumeratedKeysListed(p.recordsToRefresh);
    case TypeFetches => EnumeratedKeysPermutes(p.typesToFetch);
    case RecordFetches => EnumeratedKeysListed(p.recordsToFetch);
  }

  /** What the iteration for any key of a table does is part of what
      `makeRequest` does. */
  lemma VisitIsRequested(env: Env, reg: Registry, p: Pending, ph: Phase, key: string)
    requires key in PhaseKeys(p, ph)
    ensures forall e :: e in VisitEffects(env, reg, p, ph, key) ==> e in PendingEffects(env, reg, p)
  {
    var ks := PhaseKeys(p, ph);
    var i :| 0 <= i < |ks| && ks[i] == key;
    ConcatMapSplit(Visitor(env, reg, p, ph), ks, i);
  }

  /** A record fetch or refresh whose type's handler is a method name
      becomes the call `{ ids }` of that method, with the ids as
      `Object.keys` lists them: indices first, in ascending order. */
  lemma PendingRecordsAreRequested(env: Env, reg: Registry, p: Pending, t: TypeId, ids: seq<string>, m: string)
    ensures Get(p.recordsToFetch, t) == Some(ids) && Fetcher(reg, t) == Some(Named(m)) ==>
      Calls(m, Single("ids", Strs(EnumeratedKeys(ids))), None) in PendingEffects(env, reg, p)
    ensures Get(p.recordsToRefresh, t) == Some(ids) && Refresher(reg, t) == Some(Named(m)) ==>
      Calls(m, Single("ids", Strs(EnumeratedKeys(ids))), None) in PendingEffects(env, reg, p)
  {
    if Get(p.recordsToFetch, t) == Some(ids) && Fetcher(reg, t) == Some(Named(m)) {
      VisitRequested(env, reg, p, RecordFetches, t, Calls(m, Single("ids", Strs(EnumeratedKeys(ids))), None));
    }
    if Get(p.recordsToRefresh, t) == Some(ids) && Refresher(reg, t) == Some(Named(m)) {
      VisitRequested(env, reg, p, RecordRefreshes, t, Calls(m, Single("ids", Strs(EnumeratedKeys(ids))), None));
    }
  }

  /** The one call the iteration for `key` makes is requested. */
  lemma VisitRequested(env: Env, reg: Registry, p: Pending, ph: Phase, key: string, e: Effect)
    requires VisitEffects(env, reg, p, ph, key) == [e]
    requires match ph
      case Queries => Get(p.queries, key).Some?
      case TypeRefreshes => Get(p.typesToRefresh, key).Some?
      case RecordRefreshes => Get(p.recordsToRefresh, key).Some?
      case TypeFetches => key in p.typesToFetch
      case RecordFetches => Get(p.recordsToFetch, key).Some?
    ensures e in PendingEffects(env, reg, p)
  {
    PhaseKeysListed(p, ph, key);
    VisitIsRequested(env, reg, p, ph, key);
  }

  /** A whole-type fetch or refresh whose handler is a method name becomes
      the call with no arguments, or `{ sinceState }`. */
  lemma PendingTypesAreRequested(env: Env, reg: Registry, p: Pending, t: TypeId, state: string, m: string)
    ensures t in p.typesToFetch && Fetcher(reg, t) == Some(Named(m)) ==>
      Calls(m, JNull, None) in PendingEffects(env, reg, p)
    ensures Get(p.typesToRefresh, t) == Some(state) && Refresher(reg, t) == Some(Named(m)) ==>
      Calls(m, Single("sinceState", JStr(state)), None) in PendingEffects(env, reg, p)
  {
    if t in p.typesToFetch && Fetcher(reg, t) == Some(Named(m)) {
      VisitRequested(env, reg, p, TypeFetches, t, Calls(m, JNull, None));
    }
    if Get(p.typesToRefresh, t) == Some(state) && Refresher(reg, t) == Some(Named(m)) {
      VisitRequested(env, reg, p, TypeRefreshes, t, Calls(m, Single("sinceState", JStr(state)), None));
    }
  }

  /** A pending query whose class has a fetcher is handed to it, with its
      id and class. */
  lemma PendingQueriesAreRequested(env: Env, reg: Registry, p: Pending, queryId: string, qt: TypeId, f: FnId)
    ensures Get(p.queries, queryId) == Some(qt) && QueryFetcher(reg, qt) == Some(f) ==>
      forall e :: e in env.run(f, QueryArg(queryId, qt)) ==> e in PendingEffects(env, reg, p)
  {
    if Get(p.queries, queryId) == Some(qt) && QueryFetcher(reg, qt) == Some(f) {
      PhaseKeysListed(p, Queries, queryId);
      VisitIsRequested(env, reg, p, Queries, queryId);
    }
  }

  /** Nothing pending, nothing to do. */
  lemma NothingPending(env: Env, reg: Registry)
    ensures PendingEffects(env, reg, NoPending) == []
  {
    forall ph: Phase ensures PhaseEffects(env, reg, NoPending, ph) == [] {
      EmptyPhase(NoPending, ph);
    }
  }

  lemma EmptyPhase(p: Pending, ph: Phase)
    requires p == NoPending
    ensures PhaseKeys(p, ph) == []
  {
    assert KeySet(p.typesToFetch) == [];
  }

  /** The `callMethod` calls among `effs`, in order. */
  function CallsOf(effs: seq<Effect>): seq<Invocation>
    decreases |effs|
  {
    if effs == [] then []
    else
      var e := effs[|effs| - 1];
      CallsOf(effs[..|effs| - 1]) + (if e.Calls? then [Invocation(e.name, e.args)] else [])
  }

  /** A call among the effects is among their calls. */
  lemma {:induction false} CallsOfHas(effs: seq<Effect>, name: string, args: Json, cb: Option<CallbackId>)
    requires Calls(name, args, cb) in effs
    ensures Invocation(name, args) in CallsOf(effs)
    decreases |effs|
  {
    var init := effs[..|effs| - 1];
    if effs[|effs| - 1] != Calls(name, args, cb) {
      assert effs == init + [effs[|effs| - 1]];
      CallsOfHas(init, name, args, cb);
    }
  }

  // ---- commitChanges

  /** `change.create.storeKeys` and the like; `undefined` when missing. */
  function Sub(change: Json, part: string, key: string): Option<Json> {
    match Prop(change, part)
    case Some(v) => Prop(v, key)
    case None => None
  }

  /** What one iteration of `commitChanges`' loop calls for type `t`, and
      whether the type was handled: a committer takes the whole change;
      otherwise each of the creator, updater and destroyer that exists takes
      its part. */
  function CommitType(env: Env, reg: Registry, t: TypeId, change: Json): (r: (seq<Effect>, bool))
    ensures r.1 <==> HandlesCommit(reg, t)
    ensures !r.1 ==> r.0 == []
  {
    match Committer(reg, t)
    case Some(Named(m)) => ([Calls(m, env.setRequest(change), None)], true)
    case Some(Custom(f)) => (env.run(f, CommitArg(change)), true)
    case None =>
      (CreateEffects(env, reg, t, change) + UpdateEffects(env, reg, t, change) + DestroyEffects(env, reg, t, change),
       Creator(reg, t).Some? || Updater(reg, t).Some? || Destroyer(reg, t).Some?)
  }

  /** What the type's creator does, if it has one, on `change.create`. */
  function CreateEffects(env: Env, reg: Registry, t: TypeId, change: Json): seq<Effect> {
    match Creator(reg, t)
    case Some(f) => env.run(f, CreateArg(Sub(change, "create", "storeKeys"), Sub(change, "create", "records")))
    case None => []
  }

  /** What the type's updater does, if it has one, on `change.update`. */
  function UpdateEffects(env: Env, reg: Registry, t: TypeId, change: Json): seq<Effect> {
    match Updater(reg, t)
    case Some(f) => env.run(f, UpdateArg(Sub(change, "update", "storeKeys"), Sub(change, "update", "records"),
                                         Sub(change, "update", "changes")))
    case None => []
  }

  /** What the type's destroyer does, if it has one, on `change.destroy`. */
  function DestroyEffects(env: Env, reg: Registry, t: TypeId, change: Json): seq<Effect> {
    match Destroyer(reg, t)
    case Some(f) => env.run(f, DestroyArg(Sub(change, "destroy", "storeKeys"), Sub(change, "destroy", "ids")))
    case None => []
  }

  /** What the handlers do for the types in the order visited, each with
      its change as it was passed in. */
  function CommitEffects(env: Env, reg: Registry, changes: seq<(TypeId, Json)>, order: seq<TypeId>): seq<Effect> {
    ConcatMap((t: TypeId) => CommitType(env, reg, t, Get(changes, t).GetOr(JNull)).0, order)
  }

  /** The types `commitChanges` handles, and so deletes from the change set. */
  function HandledTypes(reg: Registry, ts: seq<TypeId>): (s: set<TypeId>)
    ensures forall t :: t in s <==> t in ts && HandlesCommit(reg, t)
  {
    set t | t in ts && HandlesCommit(reg, t)
  }

  /** `Object.keys( changes )` */
  function ChangeTypes(changes: seq<(TypeId, Json)>): (ts: seq<TypeId>)
    ensures |ts| == |changes|
  {
    EnumeratedKeysListed(changes);
    KeysOf(Enumerated(changes))
  }

  /** The order `commitChanges` visits the types of `changes` in. */
  function CommitVisit(reg: Registry, changes: seq<(TypeId, Json)>): seq<TypeId> {
    Visiting(PrecedenceTable(reg), ChangeTypes(changes))
  }
}
