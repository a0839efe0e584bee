/**
 * The per-proxy transport cache: one outbound connection configuration per
 * proxy URL, created on first use, kept for the process lifetime, and swept
 * periodically so that idle connections are released.
 */
module Transports {
  import opened Wrappers

  /**
   * An `http.Transport` as `getTransport` configures it for one proxy URL.
   * `via` is the proxy its requests go through: `None` when the URL did not
   * parse, in which case `http.ProxyURL(nil)` sends every request direct.
   */
  class Transport {
    const proxyUrl: string
    const via: Option<string>
    const maxIdleConns: int
    const maxIdleConnsPerHost: int
    const maxConnsPerHost: int                // 0: unlimited
    const idleConnTimeoutSeconds: int
    const tlsHandshakeTimeoutSeconds: int
    const expectContinueTimeoutSeconds: int
    const disableCompression: bool
    const disableKeepAlives: bool
    const forceAttemptHttp2: bool
    const insecureSkipVerify: bool
    const dialTimeoutSeconds: int
    const tcpKeepAlive: int                   // negative: TCP keep-alive off
    /** How many times this transport was asked to close its idle connections. */
    var idleSweeps: nat

    /** Nothing lets two client requests share an egress connection. */
    predicate NoConnectionReuse() {
      disableKeepAlives && !forceAttemptHttp2 && tcpKeepAlive < 0
    }

    /** Every setting has the value `getTransport` gives it. */
    predicate Configured() {
      && maxIdleConns == 100 && maxIdleConnsPerHost == 10 && maxConnsPerHost == 0
      && idleConnTimeoutSeconds == 30 && tlsHandshakeTimeoutSeconds == 5
      && expectContinueTimeoutSeconds == 1 && disableCompression
      && disableKeepAlives && !forceAttemptHttp2 && insecureSkipVerify
      && dialTimeoutSeconds == 5 && tcpKeepAlive == -1
    }

    /** `parses`: `url.Parse(proxyUrl)` returns no error. */
    constructor (proxyUrl: string, parses: bool)
      ensures this.proxyUrl == proxyUrl && Configured() && NoConnectionReuse()
      ensures via == (if parses then Some(proxyUrl) else None)
      ensures idleSweeps == 0
    {
      this.proxyUrl := proxyUrl;
      via := if parses then Some(proxyUrl) else None;
      maxIdleConns, maxIdleConnsPerHost, maxConnsPerHost := 100, 10, 0;
      idleConnTimeoutSeconds, tlsHandshakeTimeoutSeconds, expectContinueTimeoutSeconds := 30, 5, 1;
      disableCompression, disableKeepAlives, forceAttemptHttp2, insecureSkipVerify := true, true, false, true;
      dialTimeoutSeconds, tcpKeepAlive := 5, -1;
      idleSweeps := 0;
    }

    /** `CloseIdleConnections`: the transport's idle sockets are released. */
    method CloseIdleConnections()
      modifies this`idleSweeps
      ensures idleSweeps == old(idleSweeps) + 1
    {
      idleSweeps := idleSweeps + 1;
    }
  }

  /** The `transportPool` map, keyed by proxy URL. */
  class TransportPool {
    var handles: map<string, Transport>

    /**
     * Each handle is bound to its own key, goes through that proxy or direct, and
     * is configured as `getTransport` does, which also makes the handles of
     * different keys different objects.
     */
    ghost predicate Valid()
      reads this
    {
      forall url :: url in handles ==>
        && handles[url].proxyUrl == url
        && (handles[url].via == Some(url) || handles[url].via == None)
        && handles[url].Configured()
    }

    constructor ()
      ensures Valid() && handles == map[]
    {
      handles := map[];
    }

    /**
     * `getTransport`: the stored handle when there is one, untouched; otherwise
     * a new handle, stored under `proxyUrl` and nowhere else, that goes through
     * the proxy when its URL parses (`parses`) and direct when it does not.
     */
    method GetTransport(proxyUrl: string, parses: bool) returns (transport: Transport)
      requires Valid()
      modifies this
      ensures Valid()
      ensures transport.proxyUrl == proxyUrl && transport.NoConnectionReuse()
      ensures proxyUrl in old(handles) ==> transport == old(handles)[proxyUrl] && handles == old(handles)
      ensures proxyUrl !in old(handles) ==>
                && fresh(transport) && handles == old(handles)[proxyUrl := transport]
                && transport.via == (if parses then Some(proxyUrl) else None)
    {
      if proxyUrl in handles {
        return handles[proxyUrl];
      }
      transport := new Transport(proxyUrl, parses);
      handles := handles[proxyUrl := transport];
    }

    /**
     * Two lookups of the same URL in a row give the same handle, whatever the
     * second lookup's parse would have said.
     */
    method GetTransportTwice(proxyUrl: string, parses: bool, parsesAgain: bool) returns (first: Transport, second: Transport)
      requires Valid()
      modifies this
      ensures Valid()
      ensures first == second && handles == old(handles)[proxyUrl := first]
    {
      first := GetTransport(proxyUrl, parses);
      second := GetTransport(proxyUrl, parsesAgain);
    }

    /**
     * One round of the transport cleaner: every cached handle is asked once to
     * close its idle connections; no key is added or removed and no handle replaced.
     */
    method Sweep()
      requires Valid()
      modifies handles.Values
      ensures Valid()
      ensures forall url :: url in handles ==> handles[url].idleSweeps == old(handles[url].idleSweeps) + 1
    {
      var remaining := handles.Keys;
      while remaining != {}
        invariant remaining <= handles.Keys
        invariant forall url :: url in handles && url !in remaining ==>
                    handles[url].idleSweeps == old(handles[url].idleSweeps) + 1
        invariant forall url :: url in remaining ==> handles[url].idleSweeps == old(handles[url].idleSweeps)
        decreases remaining
      {
        var url :| url in remaining;
        handles[url].CloseIdleConnections();
        remaining := remaining - {url};
      }
    }
  }
}
