/**
 * The egress proxy pool: records built from the proxy list, least-recently-used
 * selection with its bookkeeping, error counting, and the read-only queries.
 */
module ProxyPool {
  import opened Wrappers
  import opened Text
  import opened Decimal

  /** One entry of the proxy list file. */
  datatype ProxyJSON = ProxyJSON(host: string, port: int, user: string, pass: string)

  /**
   * One egress proxy. `lastUsed` is a timestamp in which 0 stands for the zero
   * time, i.e. never used.
   */
  datatype Proxy = Proxy(
    url: string,
    host: string,
    port: int,
    user: string,
    pass: string,
    errorCount: nat,
    lastUsed: nat,
    usageCount: nat)

  /** What the statistics endpoint reports per proxy. */
  datatype ProxyStat = ProxyStat(host: string, port: int, usageCount: nat, errorCount: nat, lastUsed: nat)

  datatype LoadError = NoProxies

  const Scheme: string := "http://"

  /**
   * The canonical identity URL of a proxy list entry: credentials are embedded
   * only when both user and password are non-empty.
   */
  function CanonicalUrl(j: ProxyJSON): (url: string)
    ensures Scheme <= url
    ensures var hostPort := j.host + ":" + IntToString(j.port);
            |hostPort| <= |url| && url[|url| - |hostPort|..] == hostPort
  {
    var hostPort := j.host + ":" + IntToString(j.port);
    if j.user != "" && j.pass != "" then
      Regroup(Scheme, j.user, ":", j.pass, "@", j.host, ":", IntToString(j.port));
      var credentials := j.user + ":" + j.pass + "@";
      SuffixOf(Scheme, credentials, hostPort);
      Scheme + j.user + ":" + j.pass + "@" + j.host + ":" + IntToString(j.port)
    else
      SuffixOf(Scheme, "", hostPort);
      RegroupPlain(Scheme, j.host, ":", IntToString(j.port));
      Scheme + j.host + ":" + IntToString(j.port)
  }

  /** A concatenation starts with its first piece and ends with its last. */
  lemma SuffixOf(a: string, b: string, c: string)
    ensures a <= a + (b + c)
    ensures var s := a + (b + c); |c| <= |s| && s[|s| - |c|..] == c
  {
    var s := a + (b + c);
    assert s == (a + b) + c;
    assert s[|a + b|..] == c;
  }

  /** A fresh record: counters zero, never used. */
  function FromJSON(j: ProxyJSON): (p: Proxy)
    ensures p.url == CanonicalUrl(j)
    ensures p.host == j.host && p.port == j.port && p.user == j.user && p.pass == j.pass
    ensures p.errorCount == 0 && p.usageCount == 0 && p.lastUsed == 0
  {
    Proxy(CanonicalUrl(j), j.host, j.port, j.user, j.pass, 0, 0, 0)
  }

  /** `host:port`, split at the last `:`. */
  function ParseHostPort(hostPort: string): Option<(string, int)> {
    var colon := LastIndexOf(hostPort, ':');
    if colon < 0 then None
    else
      match ParseInt(hostPort[colon + 1..])
      case None => None
      case Some(port) => Some((hostPort[..colon], port))
  }

  /** `user:pass`, split at the first `:`. */
  function ParseUserinfo(userinfo: string): Option<(string, string)> {
    var sep := IndexOf(userinfo, ':');
    if sep == |userinfo| then None else Some((userinfo[..sep], userinfo[sep + 1..]))
  }

  /**
   * Splits a canonical URL back into its parts: the userinfo ends at the last `@`,
   * the user ends at the first `:` of the userinfo, and the port follows the last `:`.
   */
  function ParseCanonical(url: string): Option<ProxyJSON> {
    if |url| < |Scheme| || url[..|Scheme|] != Scheme then None else ParseAuthority(url[|Scheme|..])
  }

  /** The part after the scheme: optional `userinfo@`, then `host:port`. */
  function ParseAuthority(rest: string): Option<ProxyJSON> {
    var at := LastIndexOf(rest, '@');
    match ParseHostPort(rest[at + 1..])
    case None => None
    case Some((host, port)) =>
      if at < 0 then Some(ProxyJSON(host, port, "", ""))
      else
        match ParseUserinfo(rest[..at])
        case None => None
        case Some((user, pass)) => Some(ProxyJSON(host, port, user, pass))
  }

  lemma ParseAfterScheme(rest: string)
    ensures ParseCanonical(Scheme + rest) == ParseAuthority(rest)
  {
    var url := Scheme + rest;
    assert url[..|Scheme|] == Scheme && url[|Scheme|..] == rest;
  }

  /** The part of an entry that its URL records: credentials only when both are present. */
  function Identity(j: ProxyJSON): ProxyJSON {
    if j.user != "" && j.pass != "" then j else j.(user := "", pass := "")
  }

  lemma IntToStringHasNoSeparators(i: int)
    ensures '@' !in IntToString(i) && ':' !in IntToString(i)
  {
    var s := IntToString(i);
    if i < 0 {
      assert s == "-" + NatToString(-i);
      assert forall k :: 0 <= k < |s| ==> s[k] == '-' || '0' <= s[k] <= '9' by {
        forall k | 0 <= k < |s| ensures s[k] == '-' || '0' <= s[k] <= '9' {
          if k > 0 { assert s[k] == NatToString(-i)[k - 1]; }
        }
      }
    }
  }

  lemma HostPortRoundTrip(host: string, port: int)
    requires '@' !in host
    ensures '@' !in host + ":" + IntToString(port)
    ensures ParseHostPort(host + ":" + IntToString(port)) == Some((host, port))
  {
    var portText := IntToString(port);
    IntToStringHasNoSeparators(port);
    ParseIntToString(port);
    SplitAtLastColon(host, portText);
    NoAtInJoin(host, portText);
  }

  /** The last `:` of `host:tail` is the one before `tail` when `tail` has none. */
  lemma SplitAtLastColon(host: string, tail: string)
    requires ':' !in tail
    ensures var hp := host + ":" + tail;
            LastIndexOf(hp, ':') == |host| && hp[..|host|] == host && hp[|host| + 1..] == tail
  {
    var hp := host + ":" + tail;
    assert hp[|host|] == ':';
    assert forall k :: |host| < k < |hp| ==> hp[k] == tail[k - |host| - 1];
  }

  lemma NoAtInJoin(host: string, tail: string)
    requires '@' !in host && '@' !in tail
    ensures '@' !in host + ":" + tail
  {
    var hp := host + ":" + tail;
    assert forall k :: 0 <= k < |hp| ==> hp[k] == (if k < |host| then host[k] else if k == |host| then ':' else tail[k - |host| - 1]);
  }

  lemma UserinfoRoundTrip(user: string, pass: string)
    requires ':' !in user
    ensures ParseUserinfo(user + ":" + pass) == Some((user, pass))
  {
    var userinfo := user + ":" + pass;
    assert userinfo[|user|] == ':';
    assert IndexOf(userinfo, ':') == |user|;
    assert userinfo[..|user|] == user && userinfo[|user| + 1..] == pass;
  }

  lemma SplitAtLastAt(userinfo: string, hostPort: string)
    requires '@' !in hostPort
    ensures var rest := userinfo + "@" + hostPort;
            var at := LastIndexOf(rest, '@');
            at == |userinfo| && rest[..at] == userinfo && rest[at + 1..] == hostPort
  {
    var rest := userinfo + "@" + hostPort;
    assert rest[|userinfo|] == '@';
    assert forall k :: |userinfo| < k < |rest| ==> rest[k] == hostPort[k - |userinfo| - 1];
    assert rest[..|userinfo|] == userinfo && rest[|userinfo| + 1..] == hostPort;
  }

  /**
   * The canonical URL determines the recorded parts of its entry, for hosts
   * without `@` and users without `:`: two such entries with the same URL have
   * the same host, port and embedded credentials.
   */
  lemma ParseCanonicalUrl(j: ProxyJSON)
    requires '@' !in j.host && ':' !in j.user
    ensures ParseCanonical(CanonicalUrl(j)) == Some(Identity(j))
  {
    if j.user != "" && j.pass != "" {
      ParseWithCredentials(j);
    } else {
      ParseWithoutCredentials(j);
    }
  }

  lemma ParseWithCredentials(j: ProxyJSON)
    requires '@' !in j.host && ':' !in j.user
    requires j.user != "" && j.pass != ""
    ensures ParseCanonical(CanonicalUrl(j)) == Some(j)
  {
    var hp := j.host + ":" + IntToString(j.port);
    var userinfo := j.user + ":" + j.pass;
    Regroup(Scheme, j.user, ":", j.pass, "@", j.host, ":", IntToString(j.port));
    ParseAfterScheme(userinfo + "@" + hp);
    HostPortRoundTrip(j.host, j.port);
    UserinfoRoundTrip(j.user, j.pass);
    ParseUserinfoAndHost(userinfo, hp);
  }

  /** Concatenation regrouped, a fact about `+` only, stated apart for `ParseCanonicalUrl`. */
  lemma Regroup(a: string, b: string, c: string, d: string, e: string, f: string, g: string, h: string)
    ensures a + b + c + d + e + f + g + h == a + ((b + c + d) + e + (f + g + h))
  {
  }

  /** Concatenation regrouped around an empty middle, for `CanonicalUrl` without credentials. */
  lemma RegroupPlain(a: string, b: string, c: string, d: string)
    ensures a + b + c + d == a + ("" + (b + c + d))
  {
    assert "" + (b + c + d) == b + c + d;
  }

  lemma ParseUserinfoAndHost(userinfo: string, hostPort: string)
    requires '@' !in hostPort
    requires ParseHostPort(hostPort).Some? && ParseUserinfo(userinfo).Some?
    ensures var (host, port) := ParseHostPort(hostPort).value;
            var (user, pass) := ParseUserinfo(userinfo).value;
            ParseAuthority(userinfo + "@" + hostPort) == Some(ProxyJSON(host, port, user, pass))
  {
    SplitAtLastAt(userinfo, hostPort);
  }

  lemma ParseWithoutCredentials(j: ProxyJSON)
    requires '@' !in j.host
    requires !(j.user != "" && j.pass != "")
    ensures ParseCanonical(CanonicalUrl(j)) == Some(j.(user := "", pass := ""))
  {
    var hp := j.host + ":" + IntToString(j.port);
    assert CanonicalUrl(j) == Scheme + hp;
    ParseAfterScheme(hp);
    HostPortRoundTrip(j.host, j.port);
    assert LastIndexOf(hp, '@') == -1;
    assert hp[0..] == hp;
  }

  /** The index of the last never-used proxy, if there is one. */
  function LastNeverUsed(ps: seq<Proxy>): (r: Option<nat>)
    ensures r.None? <==> forall i :: 0 <= i < |ps| ==> ps[i].lastUsed != 0
    ensures r.Some? ==> r.value < |ps| && ps[r.value].lastUsed == 0
    ensures r.Some? ==> forall j :: r.value < j < |ps| ==> ps[j].lastUsed != 0
    decreases |ps|
  {
    if ps == [] then None
    else if ps[|ps| - 1].lastUsed == 0 then Some(|ps| - 1)
    else LastNeverUsed(ps[..|ps| - 1])
  }

  /** The index of the first proxy whose `lastUsed` is the earliest. */
  function EarliestUsed(ps: seq<Proxy>): (r: nat)
    requires |ps| > 0
    ensures r < |ps|
    ensures forall j :: 0 <= j < |ps| ==> ps[r].lastUsed <= ps[j].lastUsed
    ensures forall j :: 0 <= j < r ==> ps[r].lastUsed < ps[j].lastUsed
    decreases |ps|
  {
    if |ps| == 1 then 0
    else
      var k := EarliestUsed(ps[..|ps| - 1]);
      if ps[|ps| - 1].lastUsed < ps[k].lastUsed then |ps| - 1 else k
  }

  /**
   * What the scan of `GetProxyWithoutCheck` settles on before the random
   * fallback: the last never-used proxy if any; otherwise the first earliest-used
   * proxy provided it was used before `now`; otherwise nothing.
   */
  function LeastRecentlyUsed(ps: seq<Proxy>, now: nat): Option<nat> {
    match LastNeverUsed(ps)
    case Some(i) => Some(i)
    case None =>
      if ps != [] && ps[EarliestUsed(ps)].lastUsed < now then Some(EarliestUsed(ps)) else None
  }

  /** The proxy a selection returns; `fallback` stands for `rand.Intn(len(proxies))`. */
  function SelectedIndex(ps: seq<Proxy>, now: nat, fallback: nat): (r: Option<nat>)
    requires ps == [] || fallback < |ps|
    ensures r.None? <==> ps == []
    ensures r.Some? ==> r.value < |ps|
    // a never-used proxy beats every used one, and the last one in pool order wins
    ensures r.Some? && (exists i :: 0 <= i < |ps| && ps[i].lastUsed == 0) ==>
              ps[r.value].lastUsed == 0 && forall j :: r.value < j < |ps| ==> ps[j].lastUsed != 0
    // among used proxies only: the first strictly earliest one, if it was used before now
    ensures r.Some? && (forall i :: 0 <= i < |ps| ==> ps[i].lastUsed != 0) &&
            (exists i :: 0 <= i < |ps| && ps[i].lastUsed < now) ==>
              ps[r.value].lastUsed < now &&
              (forall j :: 0 <= j < |ps| ==> ps[r.value].lastUsed <= ps[j].lastUsed) &&
              (forall j :: 0 <= j < r.value ==> ps[r.value].lastUsed < ps[j].lastUsed)
    // nothing used before now and nothing never used: the fallback
    ensures r.Some? && (forall i :: 0 <= i < |ps| ==> 0 != ps[i].lastUsed && now <= ps[i].lastUsed) ==>
              r.value == fallback
  {
    if ps == [] then None else Some(LeastRecentlyUsed(ps, now).GetOr(fallback))
  }

  /** The bookkeeping of a selection. */
  function Touch(p: Proxy, now: nat): Proxy {
    p.(lastUsed := now, usageCount := p.usageCount + 1)
  }

  /** Counters never decrease and identities never change; no record is removed. */
  predicate Evolves(before: seq<Proxy>, after: seq<Proxy>) {
    && |after| == |before|
    && forall i :: 0 <= i < |before| ==>
         && after[i].url == before[i].url && after[i].host == before[i].host
         && after[i].port == before[i].port && after[i].user == before[i].user
         && after[i].pass == before[i].pass
         && before[i].errorCount <= after[i].errorCount
         && before[i].usageCount <= after[i].usageCount
  }

  /**
   * The pool after a selection: the chosen record is used at `now` and counted
   * once more; every other record and every other field is unchanged.
   */
  function AfterSelection(ps: seq<Proxy>, now: nat, fallback: nat): (r: seq<Proxy>)
    requires ps == [] || fallback < |ps|
    ensures Evolves(ps, r)
    ensures ps == [] ==> r == ps
    ensures ps != [] ==>
              var i := SelectedIndex(ps, now, fallback).value;
              && r[i].lastUsed == now && r[i].usageCount == ps[i].usageCount + 1
              && r[i].errorCount == ps[i].errorCount
              && forall j :: 0 <= j < |ps| && j != i ==> r[j] == ps[j]
  {
    match SelectedIndex(ps, now, fallback)
    case None => ps
    case Some(i) => ps[i := Touch(ps[i], now)]
  }

  /** The index of the first record with the given URL, if any. */
  function FirstWithUrl(ps: seq<Proxy>, url: string): (r: Option<nat>)
    ensures r.None? <==> forall i :: 0 <= i < |ps| ==> ps[i].url != url
    ensures r.Some? ==> r.value < |ps| && ps[r.value].url == url
    ensures r.Some? ==> forall j :: 0 <= j < r.value ==> ps[j].url != url
    decreases |ps|
  {
    if ps == [] then None
    else if ps[0].url == url then Some(0)
    else match FirstWithUrl(ps[1..], url)
      case None => None
      case Some(i) => Some(i + 1)
  }

  /**
   * The pool after an error is recorded against `url`: only the error counter of
   * the first matching record grows, by one; an unknown URL changes nothing.
   */
  function AfterError(ps: seq<Proxy>, url: string): (r: seq<Proxy>)
    ensures Evolves(ps, r)
    ensures (forall i :: 0 <= i < |ps| ==> ps[i].url != url) ==> r == ps
    ensures forall i :: 0 <= i < |ps| ==> r[i].usageCount == ps[i].usageCount && r[i].lastUsed == ps[i].lastUsed
    ensures forall i :: 0 <= i < |ps| ==>
              r[i].errorCount == ps[i].errorCount + (if FirstWithUrl(ps, url) == Some(i) then 1 else 0)
  {
    match FirstWithUrl(ps, url)
    case None => ps
    case Some(i) => ps[i := ps[i].(errorCount := ps[i].errorCount + 1)]
  }

  function StatOf(p: Proxy): ProxyStat {
    ProxyStat(p.host, p.port, p.usageCount, p.errorCount, p.lastUsed)
  }

  /** The scan loop of `GetProxyWithoutCheck`, tracking the oldest time seen so far. */
  method ScanLeastRecentlyUsed(ps: seq<Proxy>, now: nat) returns (selected: Option<nat>)
    ensures selected == LeastRecentlyUsed(ps, now)
  {
    var oldest := now;
    selected := None;
    var i := 0;
    while i < |ps|
      invariant 0 <= i <= |ps|
      invariant selected == LeastRecentlyUsed(ps[..i], now)
      invariant selected.Some? ==> selected.value < i && oldest == ps[selected.value].lastUsed
      invariant selected.None? ==> oldest == now
    {
      ghost var prefix := ps[..i + 1];
      assert prefix[..i] == ps[..i];
      if ps[i].lastUsed == 0 || ps[i].lastUsed < oldest {
        oldest := ps[i].lastUsed;
        selected := Some(i);
      }
      ScanStep(prefix, now, LeastRecentlyUsed(ps[..i], now));
      i := i + 1;
    }
    assert ps[..i] == ps;
  }

  /** One step of the scan agrees with `LeastRecentlyUsed` on the longer prefix. */
  lemma ScanStep(prefix: seq<Proxy>, now: nat, before: Option<nat>)
    requires |prefix| > 0
    requires before == LeastRecentlyUsed(prefix[..|prefix| - 1], now)
    ensures var n := |prefix| - 1;
            var x := prefix[n];
            var oldest := if before.Some? then prefix[before.value].lastUsed else now;
            LeastRecentlyUsed(prefix, now) ==
              if x.lastUsed == 0 || x.lastUsed < oldest then Some(n) else before
  {
    var n := |prefix| - 1;
    var init := prefix[..n];
    if |prefix| > 1 {
      assert prefix[..|prefix| - 1] == init;
    }
    match LastNeverUsed(init)
    case Some(z) =>
    case None =>
      if init != [] {
        var e := EarliestUsed(init);
        assert EarliestUsed(prefix) == (if prefix[n].lastUsed < init[e].lastUsed then n else e);
      }
  }

  /** The loop of `IncrementProxyErrorCount`: the first record with a matching URL. */
  method FindByUrl(ps: seq<Proxy>, url: string) returns (found: Option<nat>)
    ensures found == FirstWithUrl(ps, url)
  {
    var i := 0;
    while i < |ps|
      invariant 0 <= i <= |ps|
      invariant forall j :: 0 <= j < i ==> ps[j].url != url
    {
      if ps[i].url == url {
        FirstWithUrlAt(ps, url, i);
        return Some(i);
      }
      i := i + 1;
    }
    found := None;
  }

  lemma FirstWithUrlAt(ps: seq<Proxy>, url: string, i: nat)
    requires i < |ps| && ps[i].url == url
    requires forall j :: 0 <= j < i ==> ps[j].url != url
    ensures FirstWithUrl(ps, url) == Some(i)
  {
  }

  /**
   * `loadProxiesFromFile` after decoding: one record per entry, in order, with its
   * canonical URL; an empty list is an error.
   */
  method LoadProxies(list: seq<ProxyJSON>) returns (result: Result<seq<Proxy>, LoadError>)
    ensures result.Failure? <==> list == []
    ensures result.Success? ==>
              |result.value| == |list| &&
              forall i :: 0 <= i < |list| ==> result.value[i] == FromJSON(list[i])
  {
    var proxies: seq<Proxy> := [];
    var i := 0;
    while i < |list|
      invariant 0 <= i <= |list|
      invariant |proxies| == i
      invariant forall k :: 0 <= k < i ==> proxies[k] == FromJSON(list[k])
    {
      proxies := proxies + [FromJSON(list[i])];
      i := i + 1;
    }
    if |proxies| == 0 {
      return Failure(NoProxies);
    }
    result := Success(proxies);
  }

  /** The sequence of picks and the final pool of a run of selections. */
  datatype Trace = Trace(picks: seq<nat>, pool: seq<Proxy>)

  predicate FallbacksFit(ps: seq<Proxy>, fallbacks: seq<nat>) {
    forall k :: 0 <= k < |fallbacks| ==> fallbacks[k] < |ps|
  }

  /** Selections one after another, at times `nows`, with random picks `fallbacks`. */
  function Run(ps: seq<Proxy>, nows: seq<nat>, fallbacks: seq<nat>): (t: Trace)
    requires |fallbacks| == |nows| && FallbacksFit(ps, fallbacks)
    ensures |t.picks| == |nows| || ps == []
    ensures |t.pool| == |ps|
    decreases |nows|
  {
    if nows == [] || ps == [] then Trace([], ps)
    else
      var i := SelectedIndex(ps, nows[0], fallbacks[0]).value;
      var t := Run(AfterSelection(ps, nows[0], fallbacks[0]), nows[1..], fallbacks[1..]);
      Trace([i] + t.picks, t.pool)
  }

  /** Proxies below `m` have never been used and those from `m` on have. */
  predicate UsedFrom(ps: seq<Proxy>, m: nat) {
    m <= |ps| && forall i :: 0 <= i < |ps| ==> (ps[i].lastUsed == 0 <==> i < m)
  }

  lemma {:induction false} RunPicksNeverUsedFromTheEnd(ps: seq<Proxy>, m: nat, nows: seq<nat>, fallbacks: seq<nat>)
    requires UsedFrom(ps, m) && |nows| <= m
    requires forall k :: 0 <= k < |nows| ==> nows[k] > 0
    requires |fallbacks| == |nows| && FallbacksFit(ps, fallbacks)
    ensures |Run(ps, nows, fallbacks).picks| == |nows|
    ensures forall k :: 0 <= k < |nows| ==> Run(ps, nows, fallbacks).picks[k] == m - 1 - k
    decreases |nows|
  {
    if nows != [] {
      var next := AfterSelection(ps, nows[0], fallbacks[0]);
      SelectsLastNeverUsed(ps, m, nows[0], fallbacks[0]);
      TailsFit(next, nows, fallbacks);
      RunPicksNeverUsedFromTheEnd(next, m - 1, nows[1..], fallbacks[1..]);
      var rest := Run(next, nows[1..], fallbacks[1..]).picks;
      assert Run(ps, nows, fallbacks).picks == [m - 1] + rest;
      forall k | 0 <= k < |nows| ensures Run(ps, nows, fallbacks).picks[k] == m - 1 - k {
        if k > 0 {
          assert ([m - 1] + rest)[k] == rest[k - 1];
        }
      }
    }
  }

  /** One selection when the never-used proxies are exactly those below `m`. */
  lemma SelectsLastNeverUsed(ps: seq<Proxy>, m: nat, now: nat, fallback: nat)
    requires UsedFrom(ps, m) && 0 < m && 0 < now && fallback < |ps|
    ensures SelectedIndex(ps, now, fallback) == Some(m - 1)
    ensures UsedFrom(AfterSelection(ps, now, fallback), m - 1)
  {
    assert ps[m - 1].lastUsed == 0;
  }

  /** The rest of a run's inputs still satisfies the run's requirements. */
  lemma TailsFit(next: seq<Proxy>, nows: seq<nat>, fallbacks: seq<nat>)
    requires nows != [] && |fallbacks| == |nows|
    requires forall k :: 0 <= k < |nows| ==> nows[k] > 0
    requires forall k :: 0 <= k < |fallbacks| ==> fallbacks[k] < |next|
    ensures forall k :: 0 <= k < |nows[1..]| ==> nows[1..][k] > 0
    ensures FallbacksFit(next, fallbacks[1..])
  {
    forall k | 0 <= k < |nows[1..]| ensures nows[1..][k] > 0 {
      assert nows[1..][k] == nows[k + 1];
    }
    forall k | 0 <= k < |fallbacks[1..]| ensures fallbacks[1..][k] < |next| {
      assert fallbacks[1..][k] == fallbacks[k + 1];
    }
  }

  /**
   * Coverage of a fresh pool: with every `now` non-zero, the first M selections on
   * a pool of M never-used proxies pick the proxies from the last to the first,
   * so each proxy exactly once.
   */
  lemma FreshPoolCoverage(ps: seq<Proxy>, nows: seq<nat>, fallbacks: seq<nat>)
    requires forall i :: 0 <= i < |ps| ==> ps[i].lastUsed == 0
    requires |nows| == |ps|
    requires forall k :: 0 <= k < |nows| ==> nows[k] > 0
    requires |fallbacks| == |nows| && FallbacksFit(ps, fallbacks)
    ensures var picks := Run(ps, nows, fallbacks).picks;
            && |picks| == |ps|
            && (forall k :: 0 <= k < |picks| ==> picks[k] == |ps| - 1 - k)
            && (forall i :: 0 <= i < |ps| ==> i in picks)
            && (forall k, l :: 0 <= k < l < |picks| ==> picks[k] != picks[l])
  {
    RunPicksNeverUsedFromTheEnd(ps, |ps|, nows, fallbacks);
    var picks := Run(ps, nows, fallbacks).picks;
    forall i | 0 <= i < |ps| ensures i in picks {
      assert picks[|ps| - 1 - i] == i;
    }
  }

  class ProxyManager {
    var proxies: seq<Proxy>

    /** `NewProxyManager`, given the records the proxy list produced. */
    constructor (loaded: seq<Proxy>)
      ensures proxies == loaded
    {
      proxies := loaded;
    }

    /**
     * Picks the least recently used proxy (a never-used one first), marks it used
     * at `now` and counts the use; nil on an empty pool, which then stays as it is.
     */
    method GetProxyWithoutCheck(now: nat, fallback: nat) returns (proxy: Option<Proxy>)
      requires proxies == [] || fallback < |proxies|
      modifies this
      ensures proxies == AfterSelection(old(proxies), now, fallback)
      ensures proxy.None? <==> old(proxies) == []
      ensures proxy.Some? ==> proxy == Some(proxies[SelectedIndex(old(proxies), now, fallback).value])
    {
      if |proxies| == 0 {
        return None;
      }
      var selected := ScanLeastRecentlyUsed(proxies, now);
      var i := if selected.Some? then selected.value else fallback;
      proxies := proxies[i := Touch(proxies[i], now)];
      proxy := Some(proxies[i]);
    }

    /** Counts an error against the first proxy with the given URL, if any. */
    method IncrementProxyErrorCount(url: string)
      modifies this
      ensures proxies == AfterError(old(proxies), url)
    {
      var found := FindByUrl(proxies, url);
      if found.Some? {
        var i := found.value;
        proxies := proxies[i := proxies[i].(errorCount := proxies[i].errorCount + 1)];
      }
    }

    function GetTotalProxiesCount(): (n: nat)
      reads this
      ensures n == |proxies|
    {
      |proxies|
    }

    /** One statistics entry per proxy, in pool order. */
    method GetProxiesStats() returns (stats: seq<ProxyStat>)
      ensures |stats| == |proxies|
      ensures forall i :: 0 <= i < |proxies| ==> stats[i] == StatOf(proxies[i])
    {
      stats := [];
      var i := 0;
      while i < |proxies|
        invariant 0 <= i <= |proxies|
        invariant |stats| == i
        invariant forall k :: 0 <= k < i ==> stats[k] == StatOf(proxies[k])
      {
        stats := stats + [StatOf(proxies[i])];
        i := i + 1;
      }
    }
  }
}
