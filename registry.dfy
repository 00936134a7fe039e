/** The handler registry of `JMAP.Connection` (`handle` and the tables it
    fills, libs/JMAP.js). Each record type may have a fetcher, a refresher, a
    committer, a creator, an updater, a destroyer and a query fetcher, and a
    commit precedence; response handlers are keyed by server method name.

    The JavaScript keeps the tables on the class prototype and, the first time
    a connection customises one, gives the connection its own table inheriting
    from the prototype's. Here that is an explicit pair: the class's default
    `Tables` and a sparse per-connection override `Tables` consulted first. */
module Registry {
  import opened Options

  /** `O.guid( Type )` of a record or query type. */
  type TypeId = string

  /** Identity of a handler function supplied by the application. */
  type FnId = nat

  /** A fetcher, refresher or committer: a server method name to call, or a
      function of the application's. */
  datatype Handler = Named(methodName: string) | Custom(fn: FnId)

  /** What a response handler does. The first four are the handlers the
      connection class defines itself; the next four are what the record
      types register: the store glue (`didFetch`, `didFetchUpdates`,
      `didCommit`) and the `error_get<Type>Updates_cannotCalculateChanges`
      handlers, which call `this.fetchAllRecords( Type )`; the last is any
      other function of the application's.

      A fetch handler passes `isAll` when the request was its type's
      whole-type method called without `ids` (`reqMethod === 'getMailboxes'
      && !reqArgs.ids`): `allMethod` names that method, and `None` stands for
      a handler that passes no `isAll`. */
  datatype ResponseHandler =
    | ErrorRedirect
    | LogUnknownMethod
    | LogInvalidArguments
    | Ignore
    | OnFetch(type_: TypeId, allMethod: Option<string>)
    | OnUpdates(type_: TypeId)
    | OnCommit(type_: TypeId)
    | RefetchAll(type_: TypeId)
    | CustomResponse(fn: FnId)

  /** The eight keys `handle` recognises (`handleProps`). */
  const ActionKeys: set<string> :=
    {"precedence", "fetch", "refresh", "commit", "create", "update", "destroy", "query"}

  /** Any other key of a `handle` call names a response handler. */
  type ResponseName = s: string | s !in ActionKeys witness "error"

  /** One key/value pair of the object passed to `handle`. */
  datatype Registration =
    | Precedence(n: int)
    | Fetch(h: Handler)
    | Refresh(h: Handler)
    | Commit(h: Handler)
    | Create(f: FnId)
    | Update(f: FnId)
    | Destroy(f: FnId)
    | Query(f: FnId)
    | Response(name: ResponseName, r: ResponseHandler)

  datatype Tables = Tables(
    fetchers: map<TypeId, Handler>,
    refreshers: map<TypeId, Handler>,
    committers: map<TypeId, Handler>,
    creators: map<TypeId, FnId>,
    updaters: map<TypeId, FnId>,
    destroyers: map<TypeId, FnId>,
    queryFetchers: map<TypeId, FnId>,
    precedence: Option<map<TypeId, int>>,
    responses: map<string, ResponseHandler>)

  const NoTables: Tables := Tables(map[], map[], map[], map[], map[], map[], map[], None, map[])

  /** The tables on the connection class itself: no per-type handlers, no
      commit precedence (`null`), and the class's own response handlers. */
  const ClassDefaults: Tables := NoTables.(responses := map[
    "error" := ErrorRedirect,
    "error_unknownMethod" := LogUnknownMethod,
    "error_invalidArguments" := LogInvalidArguments,
    "error_accountNotFound" := Ignore,
    "error_accountReadOnly" := Ignore,
    "error_accountNoMail" := Ignore,
    "error_accountNoContacts" := Ignore,
    "error_accountNoCalendars" := Ignore
  ])

  datatype Registry = Registry(defaults: Tables, overrides: Tables)

  function Pick<K, V>(own: map<K, V>, inherited: map<K, V>, k: K): (r: Option<V>)
    ensures k in own ==> r == Some(own[k])
    ensures k !in own && k in inherited ==> r == Some(inherited[k])
    ensures r.None? <==> k !in own && k !in inherited
  {
    if k in own then Some(own[k]) else if k in inherited then Some(inherited[k]) else None
  }

  function Fetcher(r: Registry, t: TypeId): Option<Handler> {
    Pick(r.overrides.fetchers, r.defaults.fetchers, t)
  }

  function Refresher(r: Registry, t: TypeId): Option<Handler> {
    Pick(r.overrides.refreshers, r.defaults.refreshers, t)
  }

  function Committer(r: Registry, t: TypeId): Option<Handler> {
    Pick(r.overrides.committers, r.defaults.committers, t)
  }

  function Creator(r: Registry, t: TypeId): Option<FnId> {
    Pick(r.overrides.creators, r.defaults.creators, t)
  }

  function Updater(r: Registry, t: TypeId): Option<FnId> {
    Pick(r.overrides.updaters, r.defaults.updaters, t)
  }

  function Destroyer(r: Registry, t: TypeId): Option<FnId> {
    Pick(r.overrides.destroyers, r.defaults.destroyers, t)
  }

  function QueryFetcher(r: Registry, t: TypeId): Option<FnId> {
    Pick(r.overrides.queryFetchers, r.defaults.queryFetchers, t)
  }

  /** `this.response[ name ]` */
  function ResponseFor(r: Registry, name: string): Option<ResponseHandler> {
    Pick(r.overrides.responses, r.defaults.responses, name)
  }

  /** `this.commitPrecedence`: the connection's own table once it has one
      (an object whose prototype is the class's table, when that is not
      `null`), else the class's. */
  function PrecedenceTable(r: Registry): Option<map<TypeId, int>> {
    if r.overrides.precedence.Some? then Some(r.defaults.precedence.GetOr(map[]) + r.overrides.precedence.value)
    else r.defaults.precedence
  }

  /** Write one registration for type `t` into the override tables. */
  function Register(r: Registry, t: TypeId, reg: Registration): Registry {
    var o := r.overrides;
    var o' := match reg
      case Precedence(n) =>
        o.(precedence := Some(o.precedence.GetOr(map[])[t := n]))
      case Fetch(h) => o.(fetchers := o.fetchers[t := h])
      case Refresh(h) => o.(refreshers := o.refreshers[t := h])
      case Commit(h) => o.(committers := o.committers[t := h])
      case Create(f) => o.(creators := o.creators[t := f])
      case Update(f) => o.(updaters := o.updaters[t := f])
      case Destroy(f) => o.(destroyers := o.destroyers[t := f])
      case Query(f) => o.(queryFetchers := o.queryFetchers[t := f])
      case Response(name, h) => o.(responses := o.responses[name := h]);
    r.(overrides := o')
  }

  /** `handle( Type, handlers )`: the registrations in order. */
  function RegisterAll(r: Registry, t: TypeId, regs: seq<Registration>): Registry
    decreases |regs|
  {
    if regs == [] then r else RegisterAll(Register(r, t, regs[0]), t, regs[1..])
  }

  /** Whether `commitChanges` would handle type `t` at all. */
  predicate HandlesCommit(r: Registry, t: TypeId) {
    Committer(r, t).Some? || Creator(r, t).Some? || Updater(r, t).Some? || Destroyer(r, t).Some?
  }

  /** Registrations only add: every handler that existed still exists. The
      fetch, refresh and query handlers a pending request relies on are never
      taken away. */
  predicate Extends(r: Registry, r': Registry) {
    && r'.defaults == r.defaults
    && r.overrides.fetchers.Keys <= r'.overrides.fetchers.Keys
    && r.overrides.refreshers.Keys <= r'.overrides.refreshers.Keys
    && r.overrides.queryFetchers.Keys <= r'.overrides.queryFetchers.Keys
  }

  /** What `Extends` promises: a fetcher, refresher or query fetcher that
      could be found before can still be found. */
  lemma ExtendsKeepsHandlers(r: Registry, r': Registry, t: TypeId)
    requires Extends(r, r')
    ensures Fetcher(r, t).Some? ==> Fetcher(r', t).Some?
    ensures Refresher(r, t).Some? ==> Refresher(r', t).Some?
    ensures QueryFetcher(r, t).Some? ==> QueryFetcher(r', t).Some?
  {
  }

  /** A registration takes effect for its own type and action and changes the
      lookup of no other type, and of no other action of that type; the class
      defaults are never written. */
  lemma {:induction false} RegisterIsScoped(r: Registry, t: TypeId, reg: Registration, u: TypeId)
    ensures var r' := Register(r, t, reg);
      && r'.defaults == r.defaults
      && Extends(r, r')
      && Fetcher(r', u) == (if reg.Fetch? && u == t then Some(reg.h) else Fetcher(r, u))
      && Refresher(r', u) == (if reg.Refresh? && u == t then Some(reg.h) else Refresher(r, u))
      && Committer(r', u) == (if reg.Commit? && u == t then Some(reg.h) else Committer(r, u))
      && Creator(r', u) == (if reg.Create? && u == t then Some(reg.f) else Creator(r, u))
      && Updater(r', u) == (if reg.Update? && u == t then Some(reg.f) else Updater(r, u))
      && Destroyer(r', u) == (if reg.Destroy? && u == t then Some(reg.f) else Destroyer(r, u))
      && QueryFetcher(r', u) == (if reg.Query? && u == t then Some(reg.f) else QueryFetcher(r, u))
      && (forall name :: ResponseFor(r', name) ==
            if reg.Response? && name == reg.name then Some(reg.r) else ResponseFor(r, name))
      && (reg.Precedence? ==> PrecedenceTable(r').Some? && PrecedenceTable(r').value[t] == reg.n)
  {
  }

  /** Registering several handlers keeps every earlier handler available. */
  lemma {:induction false} RegisterAllExtends(r: Registry, t: TypeId, regs: seq<Registration>)
    ensures Extends(r, RegisterAll(r, t, regs))
    decreases |regs|
  {
    if regs != [] {
      RegisterIsScoped(r, t, regs[0], t);
      RegisterAllExtends(Register(r, t, regs[0]), t, regs[1..]);
    }
  }

  /** Registrations that set no fetcher leave the fetcher as it was. */
  lemma {:induction false} OtherRegistrationsKeepFetcher(r: Registry, t: TypeId, regs: seq<Registration>)
    requires forall j :: 0 <= j < |regs| ==> !regs[j].Fetch?
    ensures Fetcher(RegisterAll(r, t, regs), t) == Fetcher(r, t)
    decreases |regs|
  {
    if regs != [] {
      RegisterIsScoped(r, t, regs[0], t);
      OtherRegistrationsKeepFetcher(Register(r, t, regs[0]), t, regs[1..]);
    }
  }

  /** Last write wins: the fetcher `handle` leaves for the type is the one
      of its last `fetch` registration, whatever came before or after it. */
  lemma {:induction false} LastRegistrationWins(r: Registry, t: TypeId, regs: seq<Registration>, i: nat)
    requires i < |regs| && regs[i].Fetch?
    requires forall j :: i < j < |regs| ==> !regs[j].Fetch?
    ensures Fetcher(RegisterAll(r, t, regs), t) == Some(regs[i].h)
    decreases |regs|
  {
    var r1 := Register(r, t, regs[0]);
    RegisterIsScoped(r, t, regs[0], t);
    if i == 0 {
      OtherRegistrationsKeepFetcher(r1, t, regs[1..]);
    } else {
      LastRegistrationWins(r1, t, regs[1..], i - 1);
    }
  }
}
