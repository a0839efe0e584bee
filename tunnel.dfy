/**
 * The HTTPS tunnel through an upstream proxy: the `CONNECT` request the gateway
 * writes to the proxy, its `Proxy-Authorization` header, and how each step of
 * `handleTunneling` ends the exchange.
 */
module Tunnel {
  import opened Wrappers
  import opened Text
  import Base64

  /** The credentials `url.Parse` finds in a proxy URL. */
  datatype Userinfo = Userinfo(username: string, password: string)

  /**
   * What the gateway uses of the parsed proxy URL: `host` is `proxyURL.Host`, the
   * `host:port` the dial goes to (the dial's outcome itself is an input, so no
   * member reads it), and `user` the credentials, if any.
   */
  datatype ProxyAddress = ProxyAddress(host: string, user: Option<Userinfo>)

  /** Size of the buffer the proxy's answer is read into, in one read. */
  const ReplyBufferSize: nat := 1024

  const Crlf: string := "\r\n"

  /** What the client receives once the tunnel is up. */
  const EstablishedReply: string := "HTTP/1.1 200 Connection Established\r\n\r\n"

  /**
   * `basicAuth`: the standard base64 of the UTF-8 bytes of `username:password`
   * (the credentials of the Basic scheme, section 2 of RFC 7617).
   */
  function BasicAuth(username: string, password: string): (token: string)
    ensures Base64.Decode(token) == Some(Utf8(username + ":" + password))
    ensures forall t :: Base64.Decode(t) == Some(Utf8(username + ":" + password)) ==> t == token
  {
    var credentials := Utf8(username + ":" + password);
    Base64.DecodeEncode(credentials);
    Base64.EncodingUnique(credentials);
    Base64.Encode(credentials)
  }

  /** The header line carrying the credentials, or nothing when the proxy URL has none. */
  function AuthHeader(user: Option<Userinfo>): (line: string)
    ensures user.None? <==> line == ""
    ensures user.Some? ==> line == AuthLine(user.value) + Crlf
  {
    match user
    case None => ""
    case Some(u) => AuthLine(u) + Crlf
  }

  /** A request line and header lines, each ended by CRLF, then the empty line. */
  function HeaderBlock(lines: seq<string>): string
    decreases |lines|
  {
    if lines == [] then Crlf else lines[0] + Crlf + HeaderBlock(lines[1..])
  }

  /** The `CONNECT` request for the client's `Host`, with the credentials header when there is one. */
  function ConnectRequest(host: string, auth: string): string {
    RequestLine(host) + Crlf + HostLine(host) + Crlf + auth + Crlf
  }

  function RequestLine(host: string): string {
    "CONNECT " + host + " HTTP/1.1"
  }

  function HostLine(host: string): string {
    "Host: " + host
  }

  function AuthLine(u: Userinfo): string {
    "Proxy-Authorization: Basic " + BasicAuth(u.username, u.password)
  }

  /** The lines a `CONNECT` request is made of. */
  function ConnectLines(host: string, user: Option<Userinfo>): (lines: seq<string>)
    ensures 2 <= |lines| <= 3 && (|lines| == 3 <==> user.Some?)
  {
    [RequestLine(host), HostLine(host)] + (match user case None => [] case Some(u) => [AuthLine(u)])
  }

  lemma HeaderBlockEndsWithBlankLine(lines: seq<string>)
    requires lines != []
    ensures |HeaderBlock(lines)| >= 4
    ensures HeaderBlock(lines)[|HeaderBlock(lines)| - 4..] == "\r\n\r\n"
    decreases |lines|
  {
    if |lines| == 1 {
      assert HeaderBlock(lines) == lines[0] + Crlf + Crlf;
    } else {
      HeaderBlockEndsWithBlankLine(lines[1..]);
      var tail := HeaderBlock(lines[1..]);
      var whole := HeaderBlock(lines);
      assert whole == (lines[0] + Crlf) + tail;
      assert whole[|whole| - 4..] == tail[|tail| - 4..];
    }
  }

  lemma TwoLines(a: string, b: string)
    ensures HeaderBlock([a, b]) == a + Crlf + b + Crlf + Crlf
  {
    assert [a, b][1..] == [b];
    assert [b][1..] == [];
    assert HeaderBlock([b]) == b + Crlf + Crlf;
    assert HeaderBlock([a, b]) == a + Crlf + (b + Crlf + Crlf);
  }

  lemma ThreeLines(a: string, b: string, c: string)
    ensures HeaderBlock([a, b, c]) == a + Crlf + b + Crlf + (c + Crlf) + Crlf
  {
    assert [a, b, c][1..] == [b, c];
    TwoLines(b, c);
    assert HeaderBlock([a, b, c]) == a + Crlf + (b + Crlf + c + Crlf + Crlf);
  }

  /**
   * The request written to the proxy is a well-formed HTTP/1.1 header block:
   * request line `CONNECT host HTTP/1.1`, a `Host` line, the credentials line
   * exactly when the proxy URL has credentials, then the empty line.
   */
  lemma ConnectRequestIsHeaderBlock(host: string, user: Option<Userinfo>)
    ensures ConnectRequest(host, AuthHeader(user)) == HeaderBlock(ConnectLines(host, user))
    ensures var r := ConnectRequest(host, AuthHeader(user));
            |r| >= 4 && r[|r| - 4..] == "\r\n\r\n"
  {
    var l0, l1 := RequestLine(host), HostLine(host);
    if user.Some? {
      var l2 := AuthLine(user.value);
      assert ConnectLines(host, user) == [l0, l1, l2];
      ThreeLines(l0, l1, l2);
    } else {
      assert ConnectLines(host, user) == [l0, l1];
      TwoLines(l0, l1);
      assert ConnectRequest(host, "") == l0 + Crlf + l1 + Crlf + Crlf;
    }
    HeaderBlockEndsWithBlankLine(ConnectLines(host, user));
  }

  /** The inputs of one tunnel attempt: results of calls into the network stack and of `url.Parse`. */
  datatype TunnelIO = TunnelIO(
    proxyAddress: Option<ProxyAddress>,   // url.Parse of the proxy URL; None: a parse error
    dialOk: bool,                         // net.DialTimeout to the proxy's host:port
    received: Option<seq<byte>>,          // what the proxy answers; None: the read fails
    readLength: nat,                      // how many bytes the one Read returns; it may stop short
    hijackable: bool,                     // the response writer is an http.Hijacker
    hijackOk: bool)                       // Hijack returns no error

  /** How a tunnel attempt with a selected proxy ends. */
  datatype TunnelOutcome =
    | BadProxyUrl
    | DialFailed
    | ReadFailed(sent: string)
    | Rejected(sent: string, reply: seq<byte>)
    | NoHijack(sent: string)
    | HijackFailed(sent: string)
    | Established(sent: string)

  /**
   * What the single `Read` into the buffer returns: a prefix of the answer, no
   * longer than the buffer and no longer than the read's own length, which may
   * stop short of what the proxy sent (an answer in several segments).
   */
  function FirstRead(received: seq<byte>, readLength: nat): (reply: seq<byte>)
    ensures |reply| <= ReplyBufferSize && |reply| <= readLength && |reply| <= |received|
    ensures reply == received[..|reply|]
    ensures |reply| == ReplyBufferSize || |reply| == readLength || |reply| == |received|
  {
    var n := if readLength <= ReplyBufferSize then readLength else ReplyBufferSize;
    if |received| <= n then received else received[..n]
  }

  /** The bytes of `200`, which the answer must contain somewhere. */
  const OkCode: seq<byte> := [0x32, 0x30, 0x30]

  /** The steps of `handleTunneling` once a proxy is selected, in order. */
  function Attempt(clientHost: string, io: TunnelIO): TunnelOutcome {
    match io.proxyAddress
    case None => BadProxyUrl
    case Some(address) =>
      if !io.dialOk then DialFailed
      else
        var sent := ConnectRequest(clientHost, AuthHeader(address.user));
        match io.received
        case None => ReadFailed(sent)
        case Some(received) =>
          var reply := FirstRead(received, io.readLength);
          if !Contains(reply, OkCode) then Rejected(sent, reply)
          else if !io.hijackable then NoHijack(sent)
          else if !io.hijackOk then HijackFailed(sent)
          else Established(sent)
  }

  /** The failures that are the proxy's fault and count against it. */
  predicate ChargesProxy(o: TunnelOutcome) {
    o.DialFailed? || o.ReadFailed? || o.Rejected?
  }

  /** The status of the error reply to the client; 200 for the established tunnel. */
  function StatusOf(o: TunnelOutcome): (code: int)
    ensures ChargesProxy(o) <==> code == 502
    ensures o.Established? <==> code == 200
    ensures o.BadProxyUrl? || o.NoHijack? || o.HijackFailed? <==> code == 500
  {
    match o
    case BadProxyUrl => 500
    case DialFailed => 502
    case ReadFailed(_) => 502
    case Rejected(_, _) => 502
    case NoHijack(_) => 500
    case HijackFailed(_) => 500
    case Established(_) => 200
  }

  /**
   * The tunnel is established exactly when every step succeeds and the first
   * read of the answer contains `200`; whenever the proxy was reached, what was
   * written to it is the `CONNECT` request with the URL's credentials.
   */
  lemma EstablishedExactly(clientHost: string, io: TunnelIO)
    ensures Attempt(clientHost, io).Established? <==>
              && io.proxyAddress.Some? && io.dialOk && io.received.Some?
              && Contains(FirstRead(io.received.value, io.readLength), OkCode)
              && io.hijackable && io.hijackOk
    ensures var o := Attempt(clientHost, io);
            !o.BadProxyUrl? && !o.DialFailed? ==>
              o.sent == ConnectRequest(clientHost, AuthHeader(io.proxyAddress.value.user))
  {
  }

  /** Only the first read counts: an answer whose `200` comes after the buffer is rejected. */
  lemma LateOkIsRejected(clientHost: string, io: TunnelIO)
    requires io.proxyAddress.Some? && io.dialOk && io.received.Some?
    requires |io.received.value| > ReplyBufferSize && !Contains(io.received.value[..ReplyBufferSize], OkCode)
    ensures Attempt(clientHost, io).Rejected?
  {
    var received := io.received.value;
    var reply := FirstRead(received, io.readLength);
    assert reply == received[..ReplyBufferSize][..|reply|];
    NotInPrefix(received[..ReplyBufferSize], |reply|, OkCode);
  }

  /** A pattern missing from a sequence is missing from every prefix of it. */
  lemma NotInPrefix(s: seq<byte>, k: nat, pat: seq<byte>)
    requires k <= |s| && !Contains(s, pat)
    ensures !Contains(s[..k], pat)
  {
    forall i | 0 <= i <= k - |pat|
      ensures !OccursAt(s[..k], pat, i)
    {
      assert !OccursAt(s, pat, i);
      assert s[..k][i..i + |pat|] == s[i..i + |pat|];
    }
  }

  /**
   * A read that stops short rejects a good answer: the proxy sends
   * `HTTP/1.1 200`, but the one read returns only `HTTP/1.1 2`, the tunnel is
   * rejected and the proxy is charged.
   */
  lemma ShortReadRejected(clientHost: string, io: TunnelIO)
    requires io.proxyAddress.Some? && io.dialOk && io.hijackable && io.hijackOk
    // "HTTP/1.1 200"
    requires io.received == Some([0x48, 0x54, 0x54, 0x50, 0x2F, 0x31, 0x2E, 0x31, 0x20, 0x32, 0x30, 0x30])
    requires io.readLength == 10
    ensures Contains(io.received.value, OkCode)
    ensures Attempt(clientHost, io).Rejected?
  {
    var received := io.received.value;
    assert OccursAt(received, OkCode, 9);
    var reply := FirstRead(received, io.readLength);
    assert reply == [0x48, 0x54, 0x54, 0x50, 0x2F, 0x31, 0x2E, 0x31, 0x20, 0x32];
    forall i | 0 <= i <= |reply| - |OkCode|
      ensures !OccursAt(reply, OkCode, i)
    {
      assert reply[i..i + 3][0] == reply[i];
    }
  }

  /**
   * The check is a substring search, not a status-code check: an answer whose
   * status is 407 but whose text mentions `200` still counts as success.
   */
  lemma OkAnywhereAccepted(clientHost: string, io: TunnelIO)
    requires io.proxyAddress.Some? && io.dialOk && io.hijackable && io.hijackOk
    // "HTTP/1.1 407 200"
    requires io.received == Some([0x48, 0x54, 0x54, 0x50, 0x2F, 0x31, 0x2E, 0x31, 0x20,
                                  0x34, 0x30, 0x37, 0x20, 0x32, 0x30, 0x30])
    requires io.readLength >= 16
    ensures Attempt(clientHost, io).Established?
  {
    var reply := io.received.value;
    assert FirstRead(reply, io.readLength) == reply;
    assert reply[13..16] == OkCode;
    assert OccursAt(reply, OkCode, 13);
  }
}
