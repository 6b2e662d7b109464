/** cmd/api/middleware.go: the response writer that records the status for
    the metrics, panic recovery, rate limiting with the idle-client sweep,
    CORS, authentication and the authorisation chain. Limiters are token
    buckets whose answer at the instant of a request is an input (allow);
    time is an explicit instant in nanoseconds; the mutex is a flag plus a
    trace of its Lock and Unlock calls. */
module Middleware {
  import opened Wrappers
  import opened GoStrings
  import opened Http
  import opened Models
  import opened Validator
  import opened Tokens
  import opened Users

  /** What a middleware does with a request: hand it on, or answer it. */
  datatype Decision = Next | Respond(response: Response)

  // ---------------------------------------------------------------------
  // metricsResponseWriter

  /** A call passed through to the wrapped http.ResponseWriter. */
  datatype WriterCall = WroteHeader(status: int) | Wrote(body: string)

  /** The status the writer records after the calls: the first call decides;
      a first Write means the implicit 200. */
  function Recorded(calls: seq<WriterCall>): int {
    if calls == [] then StatusOK
    else match calls[0]
      case WroteHeader(s) => s
      case Wrote(_) => StatusOK
  }

  /** Once a call has been made, further calls never change the recorded status. */
  lemma {:induction false} RecordedIsFixed(calls: seq<WriterCall>, later: seq<WriterCall>)
    requires calls != []
    ensures Recorded(calls + later) == Recorded(calls)
  {
    assert (calls + later)[0] == calls[0];
  }

  class MetricsResponseWriter {
    var statusCode: int
    var headerWritten: bool
    /** The calls forwarded to the wrapped writer, oldest first. */
    var forwarded: seq<WriterCall>

    /** The recorded status is that of the first forwarded call, and the
        header counts as written once any call has been forwarded. */
    predicate Valid()
      reads this
    {
      statusCode == Recorded(forwarded) && headerWritten == (forwarded != [])
    }

    /** newMetricsResponseWriter: status 200, header not yet written. */
    constructor ()
      ensures Valid() && statusCode == StatusOK && !headerWritten && forwarded == []
    {
      statusCode := StatusOK;
      headerWritten := false;
      forwarded := [];
    }

    method Write(b: string)
      requires Valid()
      modifies this
      ensures Valid()
      ensures forwarded == old(forwarded) + [Wrote(b)]
      ensures headerWritten && statusCode == old(statusCode)
    {
      forwarded := forwarded + [Wrote(b)];
      headerWritten := true;
    }

    method WriteHeader(status: int)
      requires Valid()
      modifies this
      ensures Valid()
      ensures forwarded == old(forwarded) + [WroteHeader(status)]
      ensures headerWritten
      ensures statusCode == if old(headerWritten) then old(statusCode) else status
    {
      forwarded := forwarded + [WroteHeader(status)];
      if !headerWritten {
        statusCode := status;
        headerWritten := true;
      }
    }
  }

  // ---------------------------------------------------------------------
  // recoverPanic

  datatype Recovery =
    | Completed
    | Recovered(closeConnection: bool, response: Response, logged: string)

  /** The deferred recover: a panic in the rest of the chain is turned into a
      500 with "Connection: close", and its value is logged as the error.
      The panic value is taken to be its text already: the handler formats it
      with "%s" (the background helper uses "%v"), and what "%s" prints
      for a value that is neither a string nor an error is not modelled. */
  function RecoverPanic(outcome: Completion): (r: Recovery)
    ensures r.Completed? <==> outcome.Returned?
    ensures r.Recovered? ==> r.closeConnection && r.response == ServerError && r.logged == outcome.value
  {
    match outcome
    case Returned => Completed
    case Panicked(v) => Recovered(true, ServerError, v)
  }

  // ---------------------------------------------------------------------
  // rateLimit

  /** A token bucket refilled at fillRate per second holding at most burst tokens. */
  class Limiter {
    const fillRate: real
    const burst: int

    constructor (fillRate: real, burst: int)
      ensures this.fillRate == fillRate && this.burst == burst
    {
      this.fillRate := fillRate;
      this.burst := burst;
    }
  }

  datatype ClientInfo = ClientInfo(limiter: Limiter, lastSeen: int)

  datatype LockEvent = Locked | Unlocked

  /** time.Since(lastSeen) > 3*time.Minute, in nanoseconds. */
  const IdleLimit: int := 180_000_000_000

  predicate Stale(c: ClientInfo, now: int) {
    now - c.lastSeen > IdleLimit
  }

  /** The client map after one sweep at now: the entries seen within the last
      three minutes, unchanged. */
  function Swept(clients: map<string, ClientInfo>, now: int): (r: map<string, ClientInfo>)
    ensures forall ip :: ip in r <==> ip in clients && !Stale(clients[ip], now)
    ensures forall ip :: ip in r ==> r[ip] == clients[ip]
  {
    map ip | ip in clients && !Stale(clients[ip], now) :: clients[ip]
  }

  /** The state rateLimit closes over: configuration, the global limiter,
      the client map and its mutex. */
  class RateLimiter {
    const shouldRateLimit: bool
    const individualFillRate: real
    const individualBurst: int
    const globalLimiter: Limiter
    /** Whether the sweeping goroutine was started. */
    const sweeping: bool
    var clients: map<string, ClientInfo>
    var held: bool
    var lockTrace: seq<LockEvent>

    /** The setup that runs once: an empty map, the hard-coded global
        limiter of 25 tokens per second and a burst of 100, and the sweeper
        only when rate limiting is on. */
    constructor (shouldRateLimit: bool, individualFillRate: real, individualBurst: int)
      ensures this.shouldRateLimit == shouldRateLimit && sweeping == shouldRateLimit
      ensures this.individualFillRate == individualFillRate && this.individualBurst == individualBurst
      ensures globalLimiter.fillRate == 25.0 && globalLimiter.burst == 100
      ensures clients == map[] && !held && lockTrace == []
    {
      this.shouldRateLimit := shouldRateLimit;
      this.individualFillRate := individualFillRate;
      this.individualBurst := individualBurst;
      globalLimiter := new Limiter(25.0, 100);
      sweeping := shouldRateLimit;
      clients := map[];
      held := false;
      lockTrace := [];
    }

    method Lock()
      requires !held
      modifies this
      ensures held && lockTrace == old(lockTrace) + [Locked] && clients == old(clients)
    {
      held := true;
      lockTrace := lockTrace + [Locked];
    }

    method Unlock()
      requires held
      modifies this
      ensures !held && lockTrace == old(lockTrace) + [Unlocked] && clients == old(clients)
    {
      held := false;
      lockTrace := lockTrace + [Unlocked];
    }

    /** One request through rateLimit from client ip at instant now. */
    method Serve(ip: string, now: int, allow: Limiter -> bool) returns (d: Decision)
      requires !held
      modifies this
      ensures !held
      ensures !shouldRateLimit ==> d == Next && clients == old(clients) && lockTrace == old(lockTrace)
      ensures shouldRateLimit && !allow(globalLimiter) ==>
                d == Respond(GlobalRateLimitExceeded) && clients == old(clients) && lockTrace == old(lockTrace)
      ensures shouldRateLimit && allow(globalLimiter) ==>
                ip in clients && clients[ip].lastSeen == now && lockTrace == old(lockTrace) + [Locked, Unlocked]
      ensures shouldRateLimit && allow(globalLimiter) && ip in old(clients) ==>
                clients[ip].limiter == old(clients)[ip].limiter
      ensures shouldRateLimit && allow(globalLimiter) && ip !in old(clients) ==>
                fresh(clients[ip].limiter) && clients[ip].limiter.fillRate == individualFillRate
                && clients[ip].limiter.burst == individualBurst
      ensures shouldRateLimit && allow(globalLimiter) ==>
                forall k :: k != ip ==> (k in clients <==> k in old(clients)) && (k in clients ==> clients[k] == old(clients)[k])
      ensures shouldRateLimit && allow(globalLimiter) ==>
                d == if allow(clients[ip].limiter) then Next else Respond(RateLimitExceeded)
    {
      if shouldRateLimit {
        if !allow(globalLimiter) {
          return Respond(GlobalRateLimitExceeded);
        }
        Lock();
        if ip !in clients {
          var limiter := new Limiter(individualFillRate, individualBurst);
          clients := clients[ip := ClientInfo(limiter, 0)];
        }
        clients := clients[ip := clients[ip].(lastSeen := now)];
        var info := clients[ip];
        if !allow(info.limiter) {
          Unlock();
          return Respond(RateLimitExceeded);
        }
        Unlock();
      }
      return Next;
    }

    /** One pass of the sweeping goroutine at instant now: under the lock,
        every entry unseen for more than three minutes is deleted. */
    method Sweep(now: int)
      requires !held
      modifies this
      ensures !held && lockTrace == old(lockTrace) + [Locked, Unlocked]
      ensures clients == Swept(old(clients), now)
    {
      Lock();
      var pending := clients.Keys;
      while pending != {}
        invariant held && lockTrace == old(lockTrace) + [Locked]
        invariant pending <= old(clients).Keys
        invariant forall ip :: ip in clients <==> ip in old(clients) && (ip in pending || !Stale(old(clients)[ip], now))
        invariant forall ip :: ip in clients ==> clients[ip] == old(clients)[ip]
        decreases pending
      {
        var ip :| ip in pending;
        if Stale(clients[ip], now) {
          clients := clients - {ip};
        }
        pending := pending - {ip};
      }
      Unlock();
    }
  }

  // ---------------------------------------------------------------------
  // enableCORS

  /** What enableCORS adds to the response and where the request goes. */
  datatype Cors = Cors(vary: seq<string>, headers: map<string, string>, decision: Decision)

  const AllowedMethods: string := "OPTIONS, PUT, PATCH, DELETE"
  const AllowedHeaders: string := "Authorization, Content-Type"

  predicate IsPreflight(httpMethod: string, header: Values) {
    httpMethod == "OPTIONS" && Get(header, "Origin") != "" && Get(header, "Access-Control-Request-Method") != ""
  }

  function EnableCORS(httpMethod: string, header: Values, trustedOrigins: seq<string>): (r: Cors)
    ensures r.vary == ["Origin", "Access-Control-Request-Method"]
    ensures "Access-Control-Allow-Origin" in r.headers <==> Get(header, "Origin") in trustedOrigins
    ensures "Access-Control-Allow-Origin" in r.headers ==> r.headers["Access-Control-Allow-Origin"] == Get(header, "Origin")
    ensures r.decision == Next <==> !IsPreflight(httpMethod, header)
    ensures r.decision != Next ==> r.decision == Respond(Response(StatusOK, ""))
    ensures r.decision != Next ==>
              && "Access-Control-Allow-Methods" in r.headers && r.headers["Access-Control-Allow-Methods"] == AllowedMethods
              && "Access-Control-Allow-Headers" in r.headers && r.headers["Access-Control-Allow-Headers"] == AllowedHeaders
    ensures r.decision == Next ==> r.headers.Keys <= {"Access-Control-Allow-Origin"}
  {
    var origin := Get(header, "Origin");
    var allow: map<string, string> :=
      if PermittedValue(origin, trustedOrigins) then map["Access-Control-Allow-Origin" := origin] else map[];
    var vary := ["Origin", "Access-Control-Request-Method"];
    if httpMethod == "OPTIONS" && origin != "" && Get(header, "Access-Control-Request-Method") != "" then
      var headers := allow["Access-Control-Allow-Methods" := AllowedMethods]["Access-Control-Allow-Headers" := AllowedHeaders];
      Cors(vary, headers, Respond(Response(StatusOK, "")))
    else
      Cors(vary, allow, Next)
  }

  // ---------------------------------------------------------------------
  // authenticate

  /** What the Authorization header alone decides. */
  datatype HeaderCheck = Anonymous | Rejected | Lookup(token: string)

  function AuthorizationHeader(header: string): (r: HeaderCheck)
    ensures r == Anonymous <==> header == ""
    ensures r.Lookup? ==> header == "Bearer " + r.token && |r.token| == 26
  {
    if header == "" then Anonymous
    else
      var parts := Split(header, ' ');
      if |parts| != 2 || parts[0] != "Bearer" then Rejected
      else if TokenChecks(map[], parts[1]) != map[] then Rejected
      else
        JoinSplit(header, ' ');
        assert Join(parts, ' ') == parts[0] + [' '] + parts[1];
        Lookup(parts[1])
  }

  /** A user lookup happens exactly for "Bearer " followed by a 26-byte
      token without spaces; everything else is decided by the header. */
  lemma LookupIff(header: string)
    ensures AuthorizationHeader(header).Lookup? <==>
      exists t :: header == "Bearer " + t && ' ' !in t && |t| == 26
  {
    if AuthorizationHeader(header).Lookup? {
      var parts := Split(header, ' ');
      assert ' ' !in parts[1];
    }
    if exists t :: header == "Bearer " + t && ' ' !in t && |t| == 26 {
      var t :| header == "Bearer " + t && ' ' !in t && |t| == 26;
      var parts := ["Bearer", t];
      assert forall i :: 0 <= i < |parts| ==> ' ' !in parts[i];
      SplitJoin(parts, ' ');
      assert Join(parts, ' ') == header;
    }
  }

  /** What authenticate leaves for the next handler: the user set in the
      request context, or the response it sent instead. */
  datatype Authenticated = AsUser(user: User) | Refused(response: Response)

  /** authenticate; getForToken stands for UserModel.GetForToken with the
      authentication scope. */
  function Authenticate(header: string, anonymous: User, getForToken: string -> Result<User, AppError>): (r: Authenticated)
    ensures header == "" ==> r == AsUser(anonymous)
    ensures AuthorizationHeader(header).Rejected? ==> r == Refused(InvalidAuthenticationToken)
    ensures AuthorizationHeader(header).Lookup? ==>
      var found := getForToken(AuthorizationHeader(header).token);
      (found.Ok? ==> r == AsUser(found.value))
      && (found == Err(RecordNotFound) ==> r == Refused(InvalidAuthenticationToken))
      && (found.Err? && found.error != RecordNotFound ==> r == Refused(ServerError))
  {
    match AuthorizationHeader(header)
    case Anonymous => AsUser(anonymous)
    case Rejected => Refused(InvalidAuthenticationToken)
    case Lookup(token) =>
      match getForToken(token)
      case Ok(u) => AsUser(u)
      case Err(RecordNotFound) => Refused(InvalidAuthenticationToken)
      case Err(_) => Refused(ServerError)
  }

  /** A missing, malformed or invalid header is answered before any lookup:
      the outcome does not depend on the user store. */
  lemma NoLookupWithoutToken(header: string, anonymous: User,
                             g1: string -> Result<User, AppError>, g2: string -> Result<User, AppError>)
    requires !AuthorizationHeader(header).Lookup?
    ensures Authenticate(header, anonymous, g1) == Authenticate(header, anonymous, g2)
  {
  }

  // ---------------------------------------------------------------------
  // requireAuthenticatedUser, requireActivatedUser, requirePermission

  function RequireAuthenticatedUser(u: User, anonymous: User): (d: Decision)
    ensures d == Next <==> !u.IsAnonymous(anonymous)
    ensures d != Next ==> d == Respond(AuthenticationRequired)
  {
    if u.IsAnonymous(anonymous) then Respond(AuthenticationRequired) else Next
  }

  /** requireActivatedUser wraps its check in requireAuthenticatedUser, so
      the anonymous user gets 401 before activation is looked at. */
  function RequireActivatedUser(u: User, anonymous: User): (d: Decision)
    reads u
    ensures d == Next <==> !u.IsAnonymous(anonymous) && u.activated
    ensures u.IsAnonymous(anonymous) ==> d == Respond(AuthenticationRequired)
    ensures !u.IsAnonymous(anonymous) && !u.activated ==> d == Respond(ActivationRequired)
  {
    match RequireAuthenticatedUser(u, anonymous)
    case Respond(response) => Respond(response)
    case Next => if !u.activated then Respond(ActivationRequired) else Next
  }

  /** requirePermission: authenticated, then activated, then the permission;
      getAllForUser stands for PermissionModel.GetAllForUser. */
  function RequirePermission(u: User, anonymous: User, permission: string,
                             getAllForUser: int -> Result<seq<string>, DbError>): (d: Decision)
    reads u
    ensures d == Next <==>
              !u.IsAnonymous(anonymous) && u.activated && getAllForUser(u.id).Ok? && permission in getAllForUser(u.id).value
    ensures u.IsAnonymous(anonymous) ==> d == Respond(AuthenticationRequired)
    ensures !u.IsAnonymous(anonymous) && !u.activated ==> d == Respond(ActivationRequired)
    ensures !u.IsAnonymous(anonymous) && u.activated && getAllForUser(u.id).Err? ==> d == Respond(ServerError)
    ensures (!u.IsAnonymous(anonymous) && u.activated && getAllForUser(u.id).Ok?
             && permission !in getAllForUser(u.id).value) ==> d == Respond(NotPermitted)
  {
    match RequireActivatedUser(u, anonymous)
    case Respond(response) => Respond(response)
    case Next =>
      match getAllForUser(u.id)
      case Err(_) => Respond(ServerError)
      case Ok(permissions) => if permission !in permissions then Respond(NotPermitted) else Next
  }

  /** Permissions are read only for an activated, authenticated user. */
  lemma PermissionsReadLast(u: User, anonymous: User, permission: string,
                            g1: int -> Result<seq<string>, DbError>, g2: int -> Result<seq<string>, DbError>)
    requires u.IsAnonymous(anonymous) || !u.activated
    ensures RequirePermission(u, anonymous, permission, g1) == RequirePermission(u, anonymous, permission, g2)
  {
  }
}
