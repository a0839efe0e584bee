/**
 * The gateway itself: `handleRequest` answers the two special paths and admits
 * everything else to a bounded queue without blocking; a worker takes requests
 * from the queue and runs `processRequest`, which either relays the request
 * through a selected egress proxy (`handleHTTP`) or opens a tunnel through it
 * (`handleTunneling`). A pure routing function says which way each request ends;
 * the methods are proved to produce that end's response and bookkeeping.
 */
module Gateway {
  import opened Wrappers
  import opened Text
  import opened Decimal
  import opened Configuration
  import M = Metrics
  import opened ProxyPool
  import opened Endpoints
  import opened Transports
  import opened Tunnel

  /** What the gateway looks at in an incoming request: its method, URL path and `Host`. */
  datatype Request = Request(verb: string, path: string, host: string)

  const MethodConnect: string := "CONNECT"

  /** What the client receives. */
  datatype Response =
    | Status(code: int)              // a status written by the gateway itself
    | Health(body: string)           // the JSON health report, status 200
    | Forwarded(code: int)           // the upstream's status, copied with its body
    | Connected(greeting: string)    // written on the hijacked connection

  /** A completed upstream exchange: its status and how long `client.Do` took, in nanoseconds. */
  datatype Exchange = Exchange(status: int, elapsed: nat)

  /** Results of the calls `processRequest` and `handleHTTP` make into the HTTP library. */
  datatype RelayIO = RelayIO(
    targetParses: bool,              // url.Parse of the target URL
    requestBuilds: bool,             // http.NewRequest
    proxyUrlParses: bool,            // url.Parse of the proxy URL, when getTransport builds a transport
    exchange: Option<Exchange>)      // client.Do; None: an error

  /** Everything outside the gateway that one request depends on. */
  datatype Env = Env(
    now: nat,                        // time.Now() at proxy selection
    fallback: nat,                   // rand.Intn(len(proxies)) when the scan settles on nothing
    relay: RelayIO,
    tunnel: TunnelIO)

  /**
   * The request `handleHTTP` builds with `http.NewRequest`: the client's method
   * and the target URL that `processRequest` put in place of `r.URL`.
   */
  datatype Outgoing = Outgoing(verb: string, url: string)

  /** A request handed to `client.Do`, with the transport of the client that sends it. */
  datatype Sent = Sent(request: Outgoing, transport: Transport)

  /** How the processing of one admitted request ends. */
  datatype Outcome =
    | BadPath(error: ParseError)
    | TargetUnparsable
    | NoProxy
    | RequestNotBuilt(request: Outgoing)
    | UpstreamFailed(request: Outgoing)
    | Relayed(request: Outgoing, exchange: Exchange)
    | Tunnelled(attempt: TunnelOutcome)

  /** `handleHTTP` for `request`: a proxy, then the outgoing request, then the exchange. */
  function RelayRoute(poolEmpty: bool, request: Outgoing, relay: RelayIO): Outcome {
    if poolEmpty then NoProxy
    else if !relay.requestBuilds then RequestNotBuilt(request)
    else match relay.exchange
      case None => UpstreamFailed(request)
      case Some(x) => Relayed(request, x)
  }

  /** `handleTunneling`: a proxy, then the steps of the tunnel attempt. */
  function TunnelRoute(poolEmpty: bool, host: string, io: TunnelIO): Outcome {
    if poolEmpty then NoProxy else Tunnelled(Attempt(host, io))
  }

  /**
   * The order of `processRequest`: the path is parsed first, so even a `CONNECT`
   * with an unusable path ends there; then `CONNECT` goes to the tunnel, and any
   * other method is relayed to the target URL, with its own method, once that
   * URL parses.
   */
  function Route(r: Request, poolEmpty: bool, env: Env): Outcome {
    match ParseTargetURL(r.path)
    case Failure(e) => BadPath(e)
    case Success(target) =>
      if r.verb == MethodConnect then TunnelRoute(poolEmpty, r.host, env.tunnel)
      else if !env.relay.targetParses then TargetUnparsable
      else RelayRoute(poolEmpty, Outgoing(r.verb, target), env.relay)
  }

  /** A proxy is asked for (and, on a non-empty pool, marked used). */
  predicate Selects(o: Outcome) {
    !o.BadPath? && !o.TargetUnparsable?
  }

  /** The selected proxy is blamed with one more error. */
  predicate Charges(o: Outcome) {
    o.UpstreamFailed? || (o.Tunnelled? && ChargesProxy(o.attempt))
  }

  /** The transport of the selected proxy is looked up (and created if missing). */
  predicate UsesTransport(o: Outcome) {
    o.UpstreamFailed? || o.Relayed?
  }

  /** The request counts as successful; every other end counts as failed. */
  predicate Succeeds(o: Outcome) {
    o.Relayed? || (o.Tunnelled? && o.attempt.Established?)
  }

  function ResponseOf(o: Outcome): Response {
    match o
    case BadPath(_) => Status(400)
    case TargetUnparsable => Status(500)
    case NoProxy => Status(503)
    case RequestNotBuilt(_) => Status(500)
    case UpstreamFailed(_) => Status(502)
    case Relayed(_, x) => Forwarded(x.status)
    case Tunnelled(t) => if t.Established? then Connected(EstablishedReply) else Status(StatusOf(t))
  }

  /** The counters after a request settles: successful or failed grows by one. */
  function Settle(c: M.Counters, o: Outcome): M.Counters {
    if Succeeds(o) then c.(successful := M.AddU64(c.successful, 1))
    else c.(failed := M.AddU64(c.failed, 1))
  }

  /** The counters after `processRequest`: one more request in total, then settled. */
  function Tally(c: M.Counters, o: Outcome): M.Counters {
    Settle(c.(total := M.AddU64(c.total, 1)), o)
  }

  /** The response-time buffer afterwards: only a relayed exchange is timed. */
  function SamplesAfter(samples: seq<nat>, o: Outcome): seq<nat> {
    if o.Relayed? then M.LastN(samples + [o.exchange.elapsed], M.MaxResponseTimes) else samples
  }

  /** The URL of the proxy a selection picks. */
  function SelectedUrl(ps: seq<Proxy>, now: nat, fallback: nat): string
    requires ps != [] && fallback < |ps|
  {
    ps[SelectedIndex(ps, now, fallback).value].url
  }

  /** The pool afterwards: the selection's bookkeeping, then the error charged to the selected URL. */
  function PoolAfter(ps: seq<Proxy>, o: Outcome, now: nat, fallback: nat): seq<Proxy>
    requires ps == [] || fallback < |ps|
  {
    if !Selects(o) then ps
    else
      var picked := AfterSelection(ps, now, fallback);
      if Charges(o) && ps != [] then AfterError(picked, SelectedUrl(ps, now, fallback)) else picked
  }

  /** On a non-empty pool, a selecting outcome leaves the selection's bookkeeping, then its charge if any. */
  lemma PoolAfterSelected(ps: seq<Proxy>, o: Outcome, now: nat, fallback: nat)
    requires ps != [] && fallback < |ps| && Selects(o)
    ensures var picked := AfterSelection(ps, now, fallback);
            PoolAfter(ps, o, now, fallback) == if Charges(o) then AfterError(picked, SelectedUrl(ps, now, fallback)) else picked
  {
  }

  /** Every processed request is counted once in total and settles exactly one way; the gauge is restored. */
  lemma TallyCountsOnce(c: M.Counters, o: Outcome)
    requires c.total as int + 1 < 0x1_0000_0000_0000_0000
    requires c.successful as int + c.failed as int + 1 < 0x1_0000_0000_0000_0000
    ensures var t := Tally(c, o);
            && t.total as int == c.total as int + 1 && t.active == c.active
            && t.successful as int + t.failed as int == c.successful as int + c.failed as int + 1
            && (Succeeds(o) <==> t.successful as int == c.successful as int + 1)
            && (!Succeeds(o) <==> t.failed as int == c.failed as int + 1)
  {
  }

  /**
   * The gateway blames a proxy exactly when it answers 502 itself; a 502 that
   * the upstream sent is forwarded and blames nobody.
   */
  lemma ChargedExactlyOn502(o: Outcome)
    ensures Charges(o) <==> ResponseOf(o) == Status(502)
  {
    if o.Tunnelled? {
      var t := o.attempt;
      assert ChargesProxy(t) <==> StatusOf(t) == 502;
    }
  }

  /** A request succeeds exactly when it is answered with the upstream's status or the tunnel greeting. */
  lemma SuccessIsForwardedOrConnected(o: Outcome)
    ensures Succeeds(o) <==> ResponseOf(o).Forwarded? || ResponseOf(o).Connected?
  {
  }

  /** A request can only succeed when its path names an endpoint and the pool is not empty. */
  lemma SuccessNeedsEndpointAndProxy(r: Request, poolEmpty: bool, env: Env)
    ensures Succeeds(Route(r, poolEmpty, env)) ==> ParseTargetURL(r.path).Success? && !poolEmpty
  {
    var parsed := ParseTargetURL(r.path);
    if parsed.Failure? {
      assert Route(r, poolEmpty, env) == BadPath(parsed.error);
    } else if poolEmpty {
      assert Route(r, poolEmpty, env) in {NoProxy, TargetUnparsable};
    }
  }

  /**
   * A `CONNECT` in authority form (`CONNECT host:443`, whose path is empty) never
   * reaches the tunnel: the path check comes first and answers 400, selecting no proxy.
   */
  lemma AuthorityFormConnectRejected(host: string, poolEmpty: bool, env: Env)
    ensures var o := Route(Request(MethodConnect, "", host), poolEmpty, env);
            o == BadPath(UnknownEndpoint("")) && ResponseOf(o) == Status(400) && !Selects(o)
  {
    EmptyKeyRejected("");
  }

  /** A `CONNECT` to `/K/...` for a known endpoint K, with a non-empty pool, goes to the tunnel. */
  lemma ConnectToEndpointTunnels(key: string, rest: string, host: string, env: Env)
    requires '/' !in key && key in Endpoints.Endpoints
    ensures Route(Request(MethodConnect, "/" + key + "/" + rest, host), false, env) ==
              Tunnelled(Attempt(host, env.tunnel))
  {
    TargetOfKeyAndRest(key, rest);
  }

  /**
   * Any other method on `/K/rest` for a known endpoint K is relayed, when it gets
   * that far, as that method on `Endpoints[K] + "/" + rest`; it gets that far
   * exactly when the pool is not empty and the target URL and the request build.
   */
  lemma RelayAsksForEndpoint(verb: string, key: string, rest: string, host: string, poolEmpty: bool, env: Env)
    requires '/' !in key && key in Endpoints.Endpoints && verb != MethodConnect
    ensures var o := Route(Request(verb, "/" + key + "/" + rest, host), poolEmpty, env);
            && (UsesTransport(o) <==> !poolEmpty && env.relay.targetParses && env.relay.requestBuilds)
            && (UsesTransport(o) ==> o.request == Outgoing(verb, Endpoints.Endpoints[key] + "/" + rest))
  {
    TargetOfKeyAndRest(key, rest);
  }

  /**
   * With distinct proxy URLs, a charged error lands on the proxy that was
   * selected, after its selection bookkeeping; no other record's error count moves.
   */
  lemma ChargeLandsOnSelected(ps: seq<Proxy>, o: Outcome, now: nat, fallback: nat)
    requires ps != [] && fallback < |ps|
    requires forall i, j :: 0 <= i < j < |ps| ==> ps[i].url != ps[j].url
    requires Selects(o) && Charges(o)
    ensures var i := SelectedIndex(ps, now, fallback).value;
            var after := PoolAfter(ps, o, now, fallback);
            && |after| == |ps|
            && after[i].errorCount == ps[i].errorCount + 1
            && after[i].usageCount == ps[i].usageCount + 1 && after[i].lastUsed == now
            && forall j :: 0 <= j < |ps| && j != i ==> after[j] == ps[j]
  {
    var i := SelectedIndex(ps, now, fallback).value;
    var picked := AfterSelection(ps, now, fallback);
    var url := SelectedUrl(ps, now, fallback);
    assert picked[i].url == url;
    assert forall j :: 0 <= j < i ==> picked[j].url != url;
    assert FirstWithUrl(picked, url) == Some(i);
  }

  /** A flat JSON value of the health report. */
  datatype JsonValue = JString(s: string) | JNumber(n: int)

  function RenderValue(v: JsonValue): string {
    match v
    case JString(s) => "\"" + s + "\""
    case JNumber(n) => IntToString(n)
  }

  function RenderMember(member: (string, JsonValue)): string {
    "\"" + member.0 + "\":" + RenderValue(member.1)
  }

  /** A JSON object with the members in the given order, without whitespace. */
  function RenderMembers(members: seq<(string, JsonValue)>): string
    decreases |members|
  {
    if members == [] then ""
    else if |members| == 1 then RenderMember(members[0])
    else RenderMember(members[0]) + "," + RenderMembers(members[1..])
  }

  function RenderObject(members: seq<(string, JsonValue)>): string {
    "{" + RenderMembers(members) + "}"
  }

  /** The body `handleHealthCheck` prints, with the format's literal text. */
  function HealthBody(proxies: nat, workers: int, queued: nat): string {
    "{\"status\":\"ok\",\"active_proxies\":" + IntToString(proxies) +
    ",\"total_proxies\":" + IntToString(proxies) +
    ",\"workers\":" + IntToString(workers) +
    ",\"queue_size\":" + IntToString(queued) + "}"
  }

  function HealthMembers(proxies: nat, workers: int, queued: nat): seq<(string, JsonValue)> {
    [("status", JString("ok")), ("active_proxies", JNumber(proxies)), ("total_proxies", JNumber(proxies)),
     ("workers", JNumber(workers)), ("queue_size", JNumber(queued))]
  }

  /** Five members rendered in a row. */
  lemma RenderFive(ms: seq<(string, JsonValue)>)
    requires |ms| == 5
    ensures RenderObject(ms) ==
              "{" + RenderMember(ms[0]) + "," + RenderMember(ms[1]) + "," + RenderMember(ms[2]) +
              "," + RenderMember(ms[3]) + "," + RenderMember(ms[4]) + "}"
  {
    var m0, m1, m2, m3, m4 := RenderMember(ms[0]), RenderMember(ms[1]), RenderMember(ms[2]),
                              RenderMember(ms[3]), RenderMember(ms[4]);
    assert ms[1..][1..][1..][1..] == [ms[4]];
    assert RenderMembers(ms[1..][1..][1..]) == m3 + "," + m4;
    assert RenderMembers(ms[1..][1..]) == m2 + "," + (m3 + "," + m4);
    assert RenderMembers(ms[1..]) == m1 + "," + (m2 + "," + (m3 + "," + m4));
    assert RenderMembers(ms) == m0 + "," + (m1 + "," + (m2 + "," + (m3 + "," + m4)));
    Regroup("{", m0, ",", m1, m2, m3, m4, "}");
  }

  /** A numeric member is its quoted key, a colon and the number in decimal. */
  lemma NumberMember(key: string, n: int)
    ensures RenderMember((key, JNumber(n))) == ("\"" + key + "\":") + IntToString(n)
  {
  }

  /**
   * The health report is the JSON object with `status` "ok", the pool size as
   * both `active_proxies` and `total_proxies`, the worker count and the queue length.
   */
  lemma HealthBodyIsJson(proxies: nat, workers: int, queued: nat)
    ensures HealthBody(proxies, workers, queued) == RenderObject(HealthMembers(proxies, workers, queued))
  {
    var ms := HealthMembers(proxies, workers, queued);
    RenderFive(ms);
    StatusLiteral();
    NumberMember("active_proxies", proxies);
    NumberMember("total_proxies", proxies);
    NumberMember("workers", workers);
    NumberMember("queue_size", queued);
    KeyLiterals();
    OpeningLiteral();
    SeparatorLiterals();
    Assemble("{\"status\":\"ok\",\"active_proxies\":", ",\"total_proxies\":", ",\"workers\":", ",\"queue_size\":",
             "{", "\"status\":\"ok\"", ",", "\"active_proxies\":", "\"total_proxies\":", "\"workers\":", "\"queue_size\":", "}",
             IntToString(proxies), IntToString(workers), IntToString(queued));
  }

  // Facts about string concatenation only: each regroups `+` over abstract
  // pieces or splits a constant at the member boundaries. They model nothing;
  // they are stated apart so that `HealthBodyIsJson` need not search for them.

  lemma Regroup(open: string, m0: string, comma: string, m1: string, m2: string, m3: string, m4: string, close: string)
    ensures open + (m0 + comma + (m1 + comma + (m2 + comma + (m3 + comma + m4)))) + close ==
            open + m0 + comma + m1 + comma + m2 + comma + m3 + comma + m4 + close
  {
  }

  lemma OpeningLiteral()
    ensures "{\"status\":\"ok\",\"active_proxies\":" == "{" + "\"status\":\"ok\"" + "," + "\"active_proxies\":"
  {
  }

  lemma SeparatorLiterals()
    ensures ",\"total_proxies\":" == "," + "\"total_proxies\":"
    ensures ",\"workers\":" == "," + "\"workers\":"
    ensures ",\"queue_size\":" == "," + "\"queue_size\":"
  {
  }

  lemma StatusLiteral()
    ensures RenderMember(("status", JString("ok"))) == "\"status\":\"ok\""
  {
  }

  lemma KeyLiterals()
    ensures "\"" + "active_proxies" + "\":" == "\"active_proxies\":"
    ensures "\"" + "total_proxies" + "\":" == "\"total_proxies\":"
    ensures "\"" + "workers" + "\":" == "\"workers\":"
    ensures "\"" + "queue_size" + "\":" == "\"queue_size\":"
  {
  }

  lemma Assemble(a: string, b: string, c: string, d: string, open: string, status: string, comma: string,
                 active: string, total: string, work: string, size: string, close: string,
                 p: string, w: string, q: string)
    requires a == open + status + comma + active && b == comma + total && c == comma + work && d == comma + size
    ensures a + p + b + p + c + w + d + q + close ==
            open + status + comma + (active + p) + comma + (total + p) + comma + (work + w) + comma + (size + q) + close
  {
  }

  /** Where `handleRequest` sends a request. */
  datatype Admission = Answered(response: Response) | Queued

  class ProxyServer {
    const config: Config
    /** The buffer size of the request channel, `WorkerCount*2`. */
    const capacity: nat
    const proxyManager: ProxyManager
    const metrics: M.Metrics
    const transports: TransportPool
    /** Admitted requests no worker has taken yet, oldest first. */
    var queue: seq<Request>
    /** The requests handed to `client.Do`, oldest first, each with the transport that carries it. */
    var upstream: seq<Sent>

    ghost predicate Valid()
      reads this, metrics, transports
    {
      && capacity == 2 * config.workerCount
      && |queue| <= capacity
      && metrics.Valid()
      && transports.Valid()
    }

    /**
     * `NewProxyServer` followed by `startWorkers`: an empty request channel of
     * `WorkerCount*2` slots and an empty transport pool. A negative worker count
     * makes the channel allocation panic.
     */
    constructor (config: Config, proxyManager: ProxyManager, metrics: M.Metrics)
      requires config.workerCount >= 0
      requires metrics.Valid()
      ensures Valid()
      ensures this.config == config && this.proxyManager == proxyManager && this.metrics == metrics
      ensures capacity == 2 * config.workerCount && queue == [] && transports.handles == map[] && upstream == []
    {
      this.config := config;
      this.proxyManager := proxyManager;
      this.metrics := metrics;
      capacity := 2 * config.workerCount;
      transports := new TransportPool();
      queue := [];
      upstream := [];
    }

    /**
     * `handleRequest`: `/health` and `/favicon.ico` are answered at once and never
     * queued; anything else is queued when a slot is free, and otherwise counted
     * as failed and refused with 503, leaving the queue as it was.
     */
    method HandleRequest(r: Request) returns (admission: Admission)
      requires Valid()
      modifies this`queue, metrics`failedRequests
      ensures Valid()
      ensures r.path == "/health" ==>
                && admission == Answered(Health(HealthBody(|proxyManager.proxies|, config.workerCount, |old(queue)|)))
                && queue == old(queue) && metrics.failedRequests == old(metrics.failedRequests)
      ensures r.path == "/favicon.ico" ==>
                admission == Answered(Status(204)) && queue == old(queue) && metrics.failedRequests == old(metrics.failedRequests)
      ensures r.path != "/health" && r.path != "/favicon.ico" && |old(queue)| < capacity ==>
                admission == Queued && queue == old(queue) + [r] && metrics.failedRequests == old(metrics.failedRequests)
      ensures r.path != "/health" && r.path != "/favicon.ico" && |old(queue)| == capacity ==>
                && admission == Answered(Status(503)) && queue == old(queue)
                && metrics.failedRequests == M.AddU64(old(metrics.failedRequests), 1)
    {
      if r.path == "/health" {
        var proxies := proxyManager.GetTotalProxiesCount();
        return Answered(Health(HealthBody(proxies, config.workerCount, |queue|)));
      }
      if r.path == "/favicon.ico" {
        return Answered(Status(204));
      }
      if |queue| < capacity {
        queue := queue + [r];
        admission := Queued;
      } else {
        metrics.IncrementFailedRequests();
        admission := Answered(Status(503));
      }
    }

    /**
     * One iteration of a worker: the oldest queued request is taken off the
     * queue and processed; with nothing queued, nothing happens.
     */
    method WorkerStep(env: Env) returns (served: Option<(Request, Response)>)
      requires Valid()
      requires proxyManager.proxies == [] || env.fallback < |proxyManager.proxies|
      modifies this`queue, this`upstream, metrics, proxyManager, transports
      ensures Valid()
      ensures old(queue) == [] ==>
                && served == None && queue == old(queue) && upstream == old(upstream)
                && metrics.Snapshot() == old(metrics.Snapshot()) && metrics.responseTimes == old(metrics.responseTimes)
                && proxyManager.proxies == old(proxyManager.proxies) && transports.handles == old(transports.handles)
      ensures old(queue) != [] ==>
                && queue == old(queue)[1..]
                && var o := Route(old(queue)[0], old(proxyManager.proxies) == [], env);
                   && served == Some((old(queue)[0], ResponseOf(o)))
                   && metrics.Snapshot() == Tally(old(metrics.Snapshot()), o)
                   && Bookkeeping(old(proxyManager.proxies), old(metrics.responseTimes), old(transports.handles), old(upstream), o, env)
    {
      if queue == [] {
        return None;
      }
      var r := queue[0];
      queue := queue[1..];
      var response := ProcessRequest(r, env);
      served := Some((r, response));
    }

    /**
     * The state a request leaves behind besides the counters: the response-time
     * buffer, the proxy pool, and the transport of the selected proxy, which is
     * looked up (and stored when new) exactly when the outcome needed one, and
     * then the outgoing request is handed to `client.Do` through that transport.
     */
    ghost predicate Bookkeeping(ps: seq<Proxy>, samples: seq<nat>, hs: map<string, Transport>, up: seq<Sent>, o: Outcome, env: Env)
      requires ps == [] || env.fallback < |ps|
      reads this, metrics`responseTimes, proxyManager`proxies, transports`handles
    {
      && metrics.responseTimes == SamplesAfter(samples, o)
      && proxyManager.proxies == PoolAfter(ps, o, env.now, env.fallback)
      && (!UsesTransport(o) ==> transports.handles == hs && upstream == up)
      && (UsesTransport(o) ==>
            && ps != []
            && var url := SelectedUrl(ps, env.now, env.fallback);
               && url in transports.handles
               && transports.handles.Keys == hs.Keys + {url}
               && (url !in hs ==> transports.handles[url].via == (if env.relay.proxyUrlParses then Some(url) else None))
               && (forall k :: k in hs ==> transports.handles[k] == hs[k])
               && upstream == up + [Sent(o.request, transports.handles[url])])
    }

    /**
     * `processRequest`: counted in total and as active for its duration; the path
     * is parsed before the method is looked at; then tunnel or relay.
     */
    method ProcessRequest(r: Request, env: Env) returns (response: Response)
      requires metrics.Valid() && transports.Valid()
      requires proxyManager.proxies == [] || env.fallback < |proxyManager.proxies|
      modifies this`upstream, metrics, proxyManager, transports
      ensures metrics.Valid() && transports.Valid()
      ensures var o := Route(r, old(proxyManager.proxies) == [], env);
              && response == ResponseOf(o)
              && metrics.Snapshot() == Tally(old(metrics.Snapshot()), o)
              && Bookkeeping(old(proxyManager.proxies), old(metrics.responseTimes), old(transports.handles), old(upstream), o, env)
    {
      ghost var c := metrics.Snapshot();
      metrics.IncrementTotalRequests();
      metrics.IncrementActiveConnections();
      response := Dispatch(r, env);
      metrics.DecrementActiveConnections();
      M.IncrementThenDecrement(c.active);
    }

    /**
     * The body of `processRequest` between the two gauge updates: the path is
     * parsed, then `CONNECT` tunnels and anything else is relayed once its target
     * URL parses.
     */
    method Dispatch(r: Request, env: Env) returns (response: Response)
      requires metrics.Valid() && transports.Valid()
      requires proxyManager.proxies == [] || env.fallback < |proxyManager.proxies|
      modifies this`upstream, metrics`successfulRequests, metrics`failedRequests, metrics`responseTimes, proxyManager, transports
      ensures metrics.Valid() && transports.Valid()
      ensures var o := Route(r, old(proxyManager.proxies) == [], env);
              && response == ResponseOf(o)
              && metrics.Snapshot() == Settle(old(metrics.Snapshot()), o)
              && Bookkeeping(old(proxyManager.proxies), old(metrics.responseTimes), old(transports.handles), old(upstream), o, env)
    {
      ghost var ps := proxyManager.proxies;
      var target := ParseTargetURL(r.path);
      if target.Failure? {
        assert Route(r, ps == [], env) == BadPath(target.error);
        response := Refuse(BadPath(target.error), env);
      } else {
        response := DispatchParsed(r, target.value, env);
      }
    }

    /** After the path parsed: `CONNECT` tunnels; anything else is relayed once its target URL parses. */
    method DispatchParsed(r: Request, target: string, env: Env) returns (response: Response)
      requires ParseTargetURL(r.path) == Success(target)
      requires metrics.Valid() && transports.Valid()
      requires proxyManager.proxies == [] || env.fallback < |proxyManager.proxies|
      modifies this`upstream, metrics`successfulRequests, metrics`failedRequests, metrics`responseTimes, proxyManager, transports
      ensures metrics.Valid() && transports.Valid()
      ensures var o := Route(r, old(proxyManager.proxies) == [], env);
              && response == ResponseOf(o)
              && metrics.Snapshot() == Settle(old(metrics.Snapshot()), o)
              && Bookkeeping(old(proxyManager.proxies), old(metrics.responseTimes), old(transports.handles), old(upstream), o, env)
    {
      ghost var ps := proxyManager.proxies;
      if r.verb == MethodConnect {
        assert Route(r, ps == [], env) == TunnelRoute(ps == [], r.host, env.tunnel);
        response := HandleTunneling(r.host, env);
      } else {
        response := DispatchRelay(r, target, env);
      }
    }

    /** Not a `CONNECT`: the target URL must parse, and then the request is relayed to it. */
    method DispatchRelay(r: Request, target: string, env: Env) returns (response: Response)
      requires ParseTargetURL(r.path) == Success(target) && r.verb != MethodConnect
      requires metrics.Valid() && transports.Valid()
      requires proxyManager.proxies == [] || env.fallback < |proxyManager.proxies|
      modifies this`upstream, metrics`successfulRequests, metrics`failedRequests, metrics`responseTimes, proxyManager, transports
      ensures metrics.Valid() && transports.Valid()
      ensures var o := Route(r, old(proxyManager.proxies) == [], env);
              && response == ResponseOf(o)
              && metrics.Snapshot() == Settle(old(metrics.Snapshot()), o)
              && Bookkeeping(old(proxyManager.proxies), old(metrics.responseTimes), old(transports.handles), old(upstream), o, env)
    {
      ghost var ps := proxyManager.proxies;
      if !env.relay.targetParses {
        assert Route(r, ps == [], env) == TargetUnparsable;
        response := Refuse(TargetUnparsable, env);
      } else {
        var request := Outgoing(r.verb, target);
        assert Route(r, ps == [], env) == RelayRoute(ps == [], request, env.relay);
        response := HandleHTTP(request, env);
      }
    }

    /**
     * A request that ends before a transport is needed and blames no proxy, once
     * the pool is as the outcome leaves it: failed grows by one, the response is
     * the outcome's, and nothing else changes.
     */
    method Refuse(o: Outcome, env: Env) returns (response: Response)
      requires !UsesTransport(o) && !Succeeds(o)
      requires metrics.Valid()
      requires proxyManager.proxies == [] || env.fallback < |proxyManager.proxies|
      requires PoolAfter(proxyManager.proxies, o, env.now, env.fallback) == proxyManager.proxies
      modifies metrics`failedRequests
      ensures metrics.Valid()
      ensures response == ResponseOf(o)
      ensures metrics.Snapshot() == Settle(old(metrics.Snapshot()), o)
      ensures Bookkeeping(old(proxyManager.proxies), old(metrics.responseTimes), old(transports.handles), old(upstream), o, env)
    {
      metrics.IncrementFailedRequests();
      response := ResponseOf(o);
    }

    /**
     * `handleHTTP`: select a proxy, then relay `request` through it; with an empty
     * pool the request fails with 503.
     */
    method HandleHTTP(request: Outgoing, env: Env) returns (response: Response)
      requires metrics.Valid() && transports.Valid()
      requires proxyManager.proxies == [] || env.fallback < |proxyManager.proxies|
      modifies this`upstream, metrics`successfulRequests, metrics`failedRequests, metrics`responseTimes, proxyManager, transports
      ensures metrics.Valid() && transports.Valid()
      ensures var o := RelayRoute(old(proxyManager.proxies) == [], request, env.relay);
              && response == ResponseOf(o)
              && metrics.Snapshot() == Settle(old(metrics.Snapshot()), o)
              && Bookkeeping(old(proxyManager.proxies), old(metrics.responseTimes), old(transports.handles), old(upstream), o, env)
    {
      ghost var ps := proxyManager.proxies;
      ghost var o := RelayRoute(ps == [], request, env.relay);
      var proxy := proxyManager.GetProxyWithoutCheck(env.now, env.fallback);
      if proxy.None? {
        assert o == NoProxy && proxyManager.proxies == ps;
        response := Refuse(NoProxy, env);
        return;
      }
      assert proxy.value.url == SelectedUrl(ps, env.now, env.fallback);
      assert o == RelayRoute(false, request, env.relay);
      response := Relay(proxy.value.url, request, env, ps);
    }

    /**
     * The rest of `handleHTTP` once a proxy is selected: build the outgoing
     * request, take the proxy's transport, hand the request to `client.Do` through
     * it, and either blame the proxy for an error or record the exchange's duration.
     */
    method Relay(url: string, request: Outgoing, env: Env, ghost ps: seq<Proxy>) returns (response: Response)
      requires ps != [] && env.fallback < |ps|
      requires url == SelectedUrl(ps, env.now, env.fallback)
      requires proxyManager.proxies == AfterSelection(ps, env.now, env.fallback)
      requires metrics.Valid() && transports.Valid()
      modifies this`upstream, metrics`successfulRequests, metrics`failedRequests, metrics`responseTimes, proxyManager, transports
      ensures metrics.Valid() && transports.Valid()
      ensures var o := RelayRoute(false, request, env.relay);
              && response == ResponseOf(o)
              && metrics.Snapshot() == Settle(old(metrics.Snapshot()), o)
              && Bookkeeping(ps, old(metrics.responseTimes), old(transports.handles), old(upstream), o, env)
    {
      PoolAfterSelected(ps, RelayRoute(false, request, env.relay), env.now, env.fallback);
      if !env.relay.requestBuilds {
        ghost var c := metrics.Snapshot();
        metrics.IncrementFailedRequests();
        assert metrics.Snapshot() == Settle(c, RequestNotBuilt(request));
        return Status(500);
      }
      response := Send(url, request, env.relay);
    }

    /**
     * The built request goes out: the proxy's transport is taken from the cache
     * (created if missing), the request is handed to `client.Do` through it, and
     * the exchange's result is forwarded.
     */
    method Send(url: string, request: Outgoing, relay: RelayIO) returns (response: Response)
      requires relay.requestBuilds
      requires metrics.Valid() && transports.Valid()
      modifies this`upstream, metrics`successfulRequests, metrics`failedRequests, metrics`responseTimes, proxyManager, transports
      ensures metrics.Valid() && transports.Valid()
      ensures var o := RelayRoute(false, request, relay);
              && response == ResponseOf(o)
              && metrics.Snapshot() == Settle(old(metrics.Snapshot()), o)
              && metrics.responseTimes == SamplesAfter(old(metrics.responseTimes), o)
              && proxyManager.proxies == (if o.UpstreamFailed? then AfterError(old(proxyManager.proxies), url) else old(proxyManager.proxies))
      ensures url in transports.handles && transports.handles.Keys == old(transports.handles).Keys + {url}
      ensures url !in old(transports.handles) ==> transports.handles[url].via == (if relay.proxyUrlParses then Some(url) else None)
      ensures forall k :: k in old(transports.handles) ==> transports.handles[k] == old(transports.handles)[k]
      ensures upstream == old(upstream) + [Sent(request, transports.handles[url])]
    {
      ghost var hs := transports.handles;
      var transport := transports.GetTransport(url, relay.proxyUrlParses);
      assert transports.handles.Keys == hs.Keys + {url};
      upstream := upstream + [Sent(request, transport)];
      response := Forward(url, request, relay.exchange);
    }

    /**
     * The exchange through the proxy at `url`: an error is counted as failed and
     * blamed on the proxy; a completed exchange is counted as successful and its
     * duration recorded.
     */
    method Forward(url: string, request: Outgoing, exchange: Option<Exchange>) returns (response: Response)
      requires metrics.Valid()
      modifies metrics`successfulRequests, metrics`failedRequests, metrics`responseTimes, proxyManager
      ensures metrics.Valid()
      ensures exchange.None? ==>
                && response == ResponseOf(UpstreamFailed(request))
                && metrics.Snapshot() == Settle(old(metrics.Snapshot()), UpstreamFailed(request))
                && metrics.responseTimes == old(metrics.responseTimes)
                && proxyManager.proxies == AfterError(old(proxyManager.proxies), url)
      ensures exchange.Some? ==>
                && response == ResponseOf(Relayed(request, exchange.value))
                && metrics.Snapshot() == Settle(old(metrics.Snapshot()), Relayed(request, exchange.value))
                && metrics.responseTimes == SamplesAfter(old(metrics.responseTimes), Relayed(request, exchange.value))
                && proxyManager.proxies == old(proxyManager.proxies)
    {
      match exchange
      case None =>
        response := ExchangeFailed(url, request);
      case Some(x) =>
        response := ExchangeDone(request, x);
    }

    /** `client.Do` returned an error: failed +1, the proxy is charged, 502. */
    method ExchangeFailed(url: string, request: Outgoing) returns (response: Response)
      requires metrics.Valid()
      modifies metrics`failedRequests, proxyManager
      ensures metrics.Valid()
      ensures response == ResponseOf(UpstreamFailed(request))
      ensures metrics.Snapshot() == Settle(old(metrics.Snapshot()), UpstreamFailed(request))
      ensures proxyManager.proxies == AfterError(old(proxyManager.proxies), url)
    {
      ghost var c := metrics.Snapshot();
      metrics.IncrementFailedRequests();
      proxyManager.IncrementProxyErrorCount(url);
      assert metrics.Snapshot() == Settle(c, UpstreamFailed(request));
      response := Status(502);
    }

    /** `client.Do` completed: successful +1, its duration recorded, the upstream status forwarded. */
    method ExchangeDone(request: Outgoing, x: Exchange) returns (response: Response)
      requires metrics.Valid()
      modifies metrics`successfulRequests, metrics`responseTimes
      ensures metrics.Valid()
      ensures response == ResponseOf(Relayed(request, x))
      ensures metrics.Snapshot() == Settle(old(metrics.Snapshot()), Relayed(request, x))
      ensures metrics.responseTimes == SamplesAfter(old(metrics.responseTimes), Relayed(request, x))
    {
      ghost var c := metrics.Snapshot();
      metrics.IncrementSuccessfulRequests();
      metrics.RecordResponseTime(x.elapsed);
      assert metrics.Snapshot() == Settle(c, Relayed(request, x));
      response := Forwarded(x.status);
    }

    /**
     * `handleTunneling`: select a proxy, then try the tunnel through it; with an
     * empty pool the request fails with 503.
     */
    method HandleTunneling(host: string, env: Env) returns (response: Response)
      requires metrics.Valid() && transports.Valid()
      requires proxyManager.proxies == [] || env.fallback < |proxyManager.proxies|
      modifies metrics`successfulRequests, metrics`failedRequests, proxyManager
      ensures metrics.Valid()
      ensures var o := TunnelRoute(old(proxyManager.proxies) == [], host, env.tunnel);
              && response == ResponseOf(o)
              && metrics.Snapshot() == Settle(old(metrics.Snapshot()), o)
              && Bookkeeping(old(proxyManager.proxies), old(metrics.responseTimes), old(transports.handles), old(upstream), o, env)
    {
      ghost var ps := proxyManager.proxies;
      ghost var o := TunnelRoute(ps == [], host, env.tunnel);
      var proxy := proxyManager.GetProxyWithoutCheck(env.now, env.fallback);
      if proxy.None? {
        assert o == NoProxy && proxyManager.proxies == ps;
        response := Refuse(NoProxy, env);
        return;
      }
      assert proxy.value.url == SelectedUrl(ps, env.now, env.fallback);
      assert o == Tunnelled(Attempt(host, env.tunnel));
      PoolAfterSelected(ps, o, env.now, env.fallback);
      response := Handshake(proxy.value.url, host, env.tunnel);
    }

    /**
     * The rest of `handleTunneling` once a proxy is selected: parse its URL, dial
     * it, write the `CONNECT` request, read the answer once, look for `200`, then
     * hijack the client's connection and greet it. A failed dial, a failed read or
     * a rejected answer is blamed on `url`.
     */
    method Handshake(url: string, host: string, io: TunnelIO) returns (response: Response)
      modifies metrics`successfulRequests, metrics`failedRequests, proxyManager
      ensures var t := Attempt(host, io);
              && response == ResponseOf(Tunnelled(t))
              && metrics.Snapshot() == Settle(old(metrics.Snapshot()), Tunnelled(t))
              && proxyManager.proxies == if ChargesProxy(t) then AfterError(old(proxyManager.proxies), url) else old(proxyManager.proxies)
    {
      if io.proxyAddress.None? {
        metrics.IncrementFailedRequests();
        return Status(500);
      }
      if !io.dialOk {
        metrics.IncrementFailedRequests();
        proxyManager.IncrementProxyErrorCount(url);
        return Status(502);
      }
      ghost var o := Tunnelled(Attempt(host, io));
      var auth := AuthHeader(io.proxyAddress.value.user);
      var sent := ConnectRequest(host, auth);
      if io.received.None? {
        assert o == Tunnelled(ReadFailed(sent));
        metrics.IncrementFailedRequests();
        proxyManager.IncrementProxyErrorCount(url);
        return Status(502);
      }
      var reply := FirstRead(io.received.value, io.readLength);
      if !Contains(reply, OkCode) {
        assert o == Tunnelled(Rejected(sent, reply));
        metrics.IncrementFailedRequests();
        proxyManager.IncrementProxyErrorCount(url);
        return Status(502);
      }
      if !io.hijackable || !io.hijackOk {
        assert o == Tunnelled(NoHijack(sent)) || o == Tunnelled(HijackFailed(sent));
        metrics.IncrementFailedRequests();
        return Status(500);
      }
      assert o == Tunnelled(Established(sent));
      metrics.IncrementSuccessfulRequests();
      response := Connected(EstablishedReply);
    }
  }
}
