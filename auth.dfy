/** The authentication and reconnection authority, `JMAP.auth` in
    libs/JMAP.js. It gates every connection's sends on the authentication
    state, remembers the connections waiting for authentication and those
    that failed, and runs the exponential back-off countdown before failed
    connections are retried.

    The state is given twice: as the datatype `AuthState`, whose member
    functions are the specification of each operation, and as the class
    `Authority`, whose fields and methods follow the JavaScript object and
    are proved to implement those functions. Every `connection.send()` the
    authority makes (a send deferred to the end of the run loop) is recorded
    in `sendRequests`; the periodic one-second timer is an explicit `Tick`. */
module Auth {
  import opened Options
  import opened Json
  import opened Ordered

  /** Identity of a connection object. */
  type ConnId = nat

  /** The most seconds the back-off ever chooses by doubling. */
  const MaxWait: int := 300

  /** The plain-value properties an authentication payload may overwrite. */
  const SettingNames: set<string> := {
    "username", "accessToken", "accounts", "capabilities", "authenticationUrl",
    "apiUrl", "downloadUrl", "uploadUrl", "eventSourceUrl"
  }

  const InitialSettings: map<string, Json> := map[
    "username" := JStr(""), "accessToken" := JStr(""),
    "accounts" := EmptyObject, "capabilities" := EmptyObject,
    "authenticationUrl" := JStr(""), "apiUrl" := JStr(""),
    "downloadUrl" := JStr(""), "uploadUrl" := JStr(""),
    "eventSourceUrl" := JStr("")
  ]

  function Min(a: int, b: int): int {
    if a < b then a else b
  }

  datatype AuthState = AuthState(
    isAuthenticated: bool,
    settings: map<string, Json>,
    isFetchingEndPoints: bool,
    isDisconnected: bool,
    timeToReconnect: int,
    awaiting: seq<ConnId>,
    failed: seq<ConnId>,
    timeToWait: int,
    timerActive: bool,
    sendRequests: seq<ConnId>)
  {
    /** What every reachable state satisfies: the countdown is running
        exactly while the timer is armed, a wait is at least one second, and
        no connection is listed twice. */
    predicate Inv() {
      && settings.Keys == SettingNames
      && timeToReconnect >= 0
      && (timerActive <==> timeToReconnect > 0)
      && timeToWait >= 1
      && Distinct(awaiting)
      && Distinct(failed)
    }

    /** `connectionWillSend`: may connection `c` send now? When it may not,
        it waits for authentication if the authority is unauthenticated or
        refetching its endpoints. */
    function WillSend(c: ConnId): (bool, AuthState) {
      if isAuthenticated && c !in failed then (true, this)
      else if !isAuthenticated || isFetchingEndPoints then
        (false, this.(awaiting := Include(awaiting, c)))
      else (false, this)
    }

    /** `connectionSucceeded` */
    function Succeeded(): AuthState {
      if isDisconnected then this.(timeToWait := 1, isDisconnected := false)
      else this
    }

    /** `connectionFailed( connection, timeToWait )`; a `wait` of 0 stands
        for the argument being absent. */
    function Failed(c: ConnId, wait: nat): AuthState {
      if isAuthenticated then this.(failed := Include(failed, c)).RetryIn(wait)
      else this.(awaiting := Include(awaiting, c))
    }

    /** The next wait `retryIn` chooses: double the previous one, capped,
        while still disconnected; otherwise the suggestion, or one second. */
    function NextWait(wait: nat): int {
      if isDisconnected then Min(timeToWait * 2, MaxWait)
      else if wait == 0 then 1 else wait
    }

    /** `retryIn`: start the countdown unless one is running. */
    function RetryIn(wait: nat): AuthState {
      if timeToReconnect != 0 then this
      else
        var w := NextWait(wait);
        this.(isDisconnected := true, timeToReconnect := w + 1, timeToWait := w,
              timerActive := true).TickBody()
    }

    /** `_tick`: count down one second; at zero, retry. */
    function TickBody(): AuthState {
      var t := timeToReconnect - 1;
      if t == 0 then this.(timeToReconnect := t).RetryConnections()
      else this.(timeToReconnect := t)
    }

    /** One firing of the periodic timer; a timer that is not armed does not fire. */
    function Tick(): AuthState {
      if timerActive then TickBody() else this
    }

    /** `retryConnections`: stop the timer and resend every failed connection. */
    function RetryConnections(): AuthState {
      this.(timerActive := false, timeToReconnect := 0, failed := [],
            sendRequests := sendRequests + failed)
    }

    /** `didAuthenticate( data )`: copy the recognised plain-value fields,
        authenticate iff an access token was given, and resend every
        connection awaiting authentication. */
    function DidAuthenticate(data: map<string, Json>): AuthState {
      var merged := map k | k in settings :: if k in data then data[k] else settings[k];
      this.(settings := merged,
            isAuthenticated := "accessToken" in data && Truthy(Some(data["accessToken"])),
            sendRequests := sendRequests + awaiting,
            awaiting := [])
    }

    /** `didLoseAuthentication` */
    function DidLoseAuthentication(): AuthState {
      this.(isAuthenticated := false)
    }

    /** `refindEndpoints`: starts a discovery request, reported as `true`,
        unless one is running or the authority is unauthenticated. */
    function RefindEndpoints(): (bool, AuthState) {
      if isFetchingEndPoints || !isAuthenticated then (false, this)
      else (true, this.(isFetchingEndPoints := true))
    }

    /** The discovery request's `cleanup` when it ends, however it ended. */
    function RefindEndpointsDidEnd(): AuthState {
      this.(isFetchingEndPoints := false)
    }

    /** `n` firings of the timer. */
    function TickN(n: nat): AuthState
      decreases n
    {
      if n == 0 then this else Tick().TickN(n - 1)
    }
  }

  /** The state of the authority when the application starts. */
  const Initial: AuthState :=
    AuthState(false, InitialSettings, false, false, 0, [], [], 1, false, [])

  lemma InitialInv()
    ensures Initial.Inv()
  {
  }

  /** Every operation keeps the invariant. */
  lemma OperationsKeepInv(s: AuthState, c: ConnId, wait: nat, data: map<string, Json>)
    requires s.Inv()
    ensures s.WillSend(c).1.Inv()
    ensures s.Succeeded().Inv()
    ensures s.Failed(c, wait).Inv()
    ensures s.RetryIn(wait).Inv()
    ensures s.Tick().Inv()
    ensures s.RetryConnections().Inv()
    ensures s.DidAuthenticate(data).Inv()
    ensures s.DidLoseAuthentication().Inv()
    ensures s.RefindEndpoints().1.Inv()
    ensures s.RefindEndpointsDidEnd().Inv()
  {
  }

  /** A connection may send iff the authority is authenticated and the
      connection has not failed; a refused connection is queued, once, as
      awaiting authentication exactly when the authority is unauthenticated
      or refetching endpoints; nothing else changes. */
  lemma WillSendGate(s: AuthState, c: ConnId)
    ensures s.WillSend(c).0 <==> s.isAuthenticated && c !in s.failed
    ensures var (ok, t) := s.WillSend(c);
      t.awaiting == (if !ok && (!s.isAuthenticated || s.isFetchingEndPoints)
                     then Include(s.awaiting, c) else s.awaiting)
      && t == s.(awaiting := t.awaiting)
  {
  }

  /** A failure while unauthenticated queues the connection to wait for
      authentication; it is not marked failed and no countdown starts. */
  lemma FailureWhileUnauthenticated(s: AuthState, c: ConnId, wait: nat)
    requires !s.isAuthenticated
    ensures s.Failed(c, wait) == s.(awaiting := Include(s.awaiting, c))
  {
  }

  /** A 401: once authentication is lost, the connection is refused and
      queued as awaiting authentication, not as failed. */
  lemma LostAuthenticationQueuesAwaiting(s: AuthState, c: ConnId)
    ensures var (ok, t) := s.DidLoseAuthentication().WillSend(c);
      !ok && !t.isAuthenticated && c in t.awaiting && t.failed == s.failed
  {
  }

  /** `retryIn` does nothing while a countdown runs; otherwise it disconnects,
      arms the timer and, after the immediate first tick, `timeToReconnect`
      is the chosen wait. */
  lemma RetryInStarts(s: AuthState, wait: nat)
    requires s.Inv()
    ensures s.timeToReconnect != 0 ==> s.RetryIn(wait) == s
    ensures s.timeToReconnect == 0 ==>
      var t := s.RetryIn(wait);
      && t.isDisconnected && t.timerActive
      && t.timeToWait == s.NextWait(wait) && t.timeToReconnect == t.timeToWait
      && t.failed == s.failed && t.sendRequests == s.sendRequests
  {
  }

  /** After a success the next wait is the suggestion or one second again. */
  lemma SuccessResetsBackoff(s: AuthState, wait: nat)
    ensures !s.Succeeded().isDisconnected
    ensures s.Succeeded().NextWait(wait) == if wait == 0 then 1 else wait
    ensures s.isDisconnected ==> s.Succeeded().timeToWait == 1
  {
  }

  /** While the countdown runs, each tick takes one second off; the tick that
      reaches zero retries every failed connection and disarms the timer. */
  lemma {:induction false} Countdown(s: AuthState, n: nat)
    requires s.Inv() && s.timerActive && n <= s.timeToReconnect
    ensures s.TickN(n) == if n < s.timeToReconnect
                          then s.(timeToReconnect := s.timeToReconnect - n)
                          else s.RetryConnections()
    decreases n
  {
    if n > 0 {
      var t := s.Tick();
      if s.timeToReconnect == 1 {
        assert t == s.RetryConnections();
        assert n == 1;
      } else {
        assert t == s.(timeToReconnect := s.timeToReconnect - 1);
        Countdown(t, n - 1);
      }
    }
  }

  function Pow2(k: nat): nat {
    if k == 0 then 1 else 2 * Pow2(k - 1)
  }

  /** The wait of the `k`-th failure in a row, counting from 0. */
  function BackoffWait(k: nat): int {
    Min(Pow2(k), MaxWait)
  }

  /** One failure of connection `c` with no suggested wait, followed by the
      timer running down until the connection is retried. */
  function FailureCycle(s: AuthState, c: ConnId): AuthState {
    var f := s.Failed(c, 0);
    f.TickN(if f.timeToReconnect < 0 then 0 else f.timeToReconnect)
  }

  function Cycles(s: AuthState, c: ConnId, k: nat): AuthState
    decreases k
  {
    if k == 0 then s else FailureCycle(Cycles(s, c, k - 1), c)
  }

  function Repeated(c: ConnId, k: nat): (r: seq<ConnId>)
    ensures |r| == k
  {
    if k == 0 then [] else Repeated(c, k - 1) + [c]
  }

  /** Exponential back-off: starting connected and authenticated, with no
      failed connection and no countdown, the `k`-th consecutive failure of
      a connection waits min(2^(k-1), 300) seconds, and each cycle ends with
      the timer disarmed and the connection resent exactly once more. */
  lemma {:induction false} BackoffSequence(s: AuthState, c: ConnId, k: nat)
    requires s.Inv() && s.isAuthenticated && !s.isDisconnected
    requires s.timeToReconnect == 0 && s.failed == []
    requires k >= 1
    ensures var t := Cycles(s, c, k);
      && t.Inv() && t.isAuthenticated && t.isDisconnected
      && t.timeToWait == BackoffWait(k - 1)
      && t.timeToReconnect == 0 && !t.timerActive && t.failed == []
      && t.sendRequests == s.sendRequests + Repeated(c, k)
      && t.awaiting == s.awaiting && t.settings == s.settings
  {
    var p := Cycles(s, c, k - 1);
    if k > 1 {
      BackoffSequence(s, c, k - 1);
      assert Pow2(k - 1) == 2 * Pow2(k - 2);
    }
    var f := p.Failed(c, 0);
    assert f.failed == [c];
    assert f.timeToWait == BackoffWait(k - 1);
    Countdown(f, f.timeToReconnect);
  }

  /** `didAuthenticate` changes only the recognised fields named in the
      payload, authenticates iff the payload has a truthy access token, and
      resends every awaiting connection in order, leaving none waiting. */
  lemma AuthenticateFlushesAwaiting(s: AuthState, data: map<string, Json>)
    requires s.Inv()
    ensures var t := s.DidAuthenticate(data);
      && t.isAuthenticated == ("accessToken" in data && Truthy(Some(data["accessToken"])))
      && t.awaiting == [] && t.sendRequests == s.sendRequests + s.awaiting
      && t.settings.Keys == s.settings.Keys
      && (forall k :: k in t.settings ==>
            t.settings[k] == if k in data then data[k] else s.settings[k])
      && t.failed == s.failed && t.timeToWait == s.timeToWait
  {
  }

  /** The JavaScript object `JMAP.auth`. */
  class Authority {
    var isAuthenticated: bool
    var settings: map<string, Json>
    var isFetchingEndPoints: bool
    var isDisconnected: bool
    var timeToReconnect: int
    var awaitingAuthentication: seq<ConnId>
    var failedConnections: seq<ConnId>
    var timeToWait: int
    var timerActive: bool
    var sendRequests: seq<ConnId>

    function State(): AuthState
      reads this
    {
      AuthState(isAuthenticated, settings, isFetchingEndPoints, isDisconnected,
                timeToReconnect, awaitingAuthentication, failedConnections,
                timeToWait, timerActive, sendRequests)
    }

    ghost predicate Valid()
      reads this
    {
      State().Inv()
    }

    constructor ()
      ensures State() == Initial && Valid()
    {
      isAuthenticated := false;
      settings := InitialSettings;
      isFetchingEndPoints := false;
      isDisconnected := false;
      timeToReconnect := 0;
      awaitingAuthentication := [];
      failedConnections := [];
      timeToWait := 1;
      timerActive := false;
      sendRequests := [];
    }

    method ConnectionWillSend(c: ConnId) returns (ok: bool)
      requires Valid()
      modifies this
      ensures Valid()
      ensures (ok, State()) == old(State()).WillSend(c)
      ensures ok <==> old(isAuthenticated) && c !in old(failedConnections)
    {
      if isAuthenticated && c !in failedConnections {
        return true;
      }
      if !isAuthenticated || isFetchingEndPoints {
        awaitingAuthentication := Include(awaitingAuthentication, c);
      }
      return false;
    }

    method ConnectionSucceeded()
      requires Valid()
      modifies this
      ensures Valid() && State() == old(State()).Succeeded()
    {
      if isDisconnected {
        timeToWait := 1;
        isDisconnected := false;
      }
    }

    method ConnectionFailed(c: ConnId, wait: nat)
      requires Valid()
      modifies this
      ensures Valid() && State() == old(State()).Failed(c, wait)
    {
      if isAuthenticated {
        failedConnections := Include(failedConnections, c);
        RetryIn(wait);
      } else {
        awaitingAuthentication := Include(awaitingAuthentication, c);
      }
    }

    method RetryIn(wait: nat)
      requires Valid()
      modifies this
      ensures Valid() && State() == old(State()).RetryIn(wait)
    {
      if timeToReconnect == 0 {
        var w := if isDisconnected then Min(timeToWait * 2, MaxWait)
                 else if wait == 0 then 1 else wait;
        isDisconnected := true;
        timeToReconnect := w + 1;
        timeToWait := w;
        timerActive := true;
        TickBody();
      }
    }

    /** `_tick`, also called once by `retryIn` itself. */
    method TickBody()
      requires Valid() && timerActive
      modifies this
      ensures Valid() && State() == old(State()).TickBody()
    {
      timeToReconnect := timeToReconnect - 1;
      if timeToReconnect == 0 {
        RetryConnections();
      }
    }

    /** The periodic timer firing once. */
    method Tick()
      requires Valid()
      modifies this
      ensures Valid() && State() == old(State()).Tick()
    {
      if timerActive {
        TickBody();
      }
    }

    method RetryConnections()
      modifies this
      ensures State() == old(State()).RetryConnections()
    {
      var failed := failedConnections;
      timerActive := false;
      timeToReconnect := 0;
      failedConnections := [];
      sendRequests := sendRequests + failed;
    }

    method DidAuthenticate(data: map<string, Json>)
      requires Valid()
      modifies this
      ensures Valid() && State() == old(State()).DidAuthenticate(data)
    {
      settings := map k | k in settings :: if k in data then data[k] else settings[k];
      isAuthenticated := "accessToken" in data && Truthy(Some(data["accessToken"]));
      sendRequests := sendRequests + awaitingAuthentication;
      awaitingAuthentication := [];
    }

    method DidLoseAuthentication()
      requires Valid()
      modifies this
      ensures Valid() && State() == old(State()).DidLoseAuthentication()
    {
      isAuthenticated := false;
    }

    method RefindEndpoints() returns (started: bool)
      requires Valid()
      modifies this
      ensures Valid() && (started, State()) == old(State()).RefindEndpoints()
    {
      if isFetchingEndPoints || !isAuthenticated {
        return false;
      }
      isFetchingEndPoints := true;
      return true;
    }

    method RefindEndpointsDidEnd()
      requires Valid()
      modifies this
      ensures Valid() && State() == old(State()).RefindEndpointsDidEnd()
    {
      isFetchingEndPoints := false;
    }
  }
}
