/**
 * The base64 encoding of section 4 of RFC 4648 (standard alphabet, `=` padding),
 * which Go's `base64.StdEncoding.EncodeToString` implements, and a strict
 * decoder (padding bits must be zero, RFC 4648 section 3.5) that is proved to
 * invert it in both directions, so each byte string has exactly one encoding.
 */
module Base64 {
  import opened Wrappers
  import opened Text

  const Pad: char := '='

  /**
   * The character that encodes the 6-bit value `v`, as Table 1 of RFC 4648 lists
   * them: 0-25 are `A`-`Z`, 26-51 are `a`-`z`, 52-61 are `0`-`9`, then `+` and `/`.
   */
  function Sextet(v: nat): (c: char)
    requires v < 64
    ensures c != Pad
  {
    if v < 26 then ('A' as int + v) as char
    else if v < 52 then ('a' as int + (v - 26)) as char
    else if v < 62 then ('0' as int + (v - 52)) as char
    else if v == 62 then '+'
    else '/'
  }

  /** The 6-bit value a character encodes, if it is in the alphabet. */
  function SextetValue(c: char): (r: Option<nat>)
    ensures r.Some? ==> r.value < 64 && Sextet(r.value) == c
  {
    if 'A' <= c <= 'Z' then Some(c as int - 'A' as int)
    else if 'a' <= c <= 'z' then Some(c as int - 'a' as int + 26)
    else if '0' <= c <= '9' then Some(c as int - '0' as int + 52)
    else if c == '+' then Some(62)
    else if c == '/' then Some(63)
    else None
  }

  lemma SextetValueOfSextet(v: nat)
    requires v < 64
    ensures SextetValue(Sextet(v)) == Some(v)
  {
  }

  /** Three bytes become four characters (RFC 4648 section 4, 24-bit groups). */
  function EncodeGroup(b0: byte, b1: byte, b2: byte): (s: string)
    ensures |s| == 4
  {
    var x0, x1, x2 := b0 as int, b1 as int, b2 as int;
    [Sextet(x0 / 4), Sextet((x0 % 4) * 16 + x1 / 16), Sextet((x1 % 16) * 4 + x2 / 64), Sextet(x2 % 64)]
  }

  /** Standard base64 with padding. */
  function Encode(b: seq<byte>): (s: string)
    ensures |s| == 4 * ((|b| + 2) / 3)
    decreases |b|
  {
    if |b| == 0 then ""
    else if |b| == 1 then
      var x0 := b[0] as int;
      [Sextet(x0 / 4), Sextet((x0 % 4) * 16), Pad, Pad]
    else if |b| == 2 then
      var x0, x1 := b[0] as int, b[1] as int;
      [Sextet(x0 / 4), Sextet((x0 % 4) * 16 + x1 / 16), Sextet((x1 % 16) * 4), Pad]
    else
      EncodeGroup(b[0], b[1], b[2]) + Encode(b[3..])
  }

  /** Four alphabet characters back to three bytes. */
  function DecodeGroup(v0: nat, v1: nat, v2: nat, v3: nat): (b: seq<byte>)
    requires v0 < 64 && v1 < 64 && v2 < 64 && v3 < 64
    ensures |b| == 3
  {
    [(v0 * 4 + v1 / 16) as byte, ((v1 % 16) * 16 + v2 / 4) as byte, ((v2 % 4) * 64 + v3) as byte]
  }

  /** A group that is not the last one: four alphabet characters, no padding. */
  function DecodeFull(c0: char, c1: char, c2: char, c3: char): Option<seq<byte>> {
    match (SextetValue(c0), SextetValue(c1), SextetValue(c2), SextetValue(c3))
    case (Some(v0), Some(v1), Some(v2), Some(v3)) => Some(DecodeGroup(v0, v1, v2, v3))
    case _ => None
  }

  /**
   * The last group, which may end in one or two padding characters; the bits
   * that padding leaves over in the last alphabet character must be zero.
   */
  function DecodeLast(c0: char, c1: char, c2: char, c3: char): Option<seq<byte>> {
    if c2 == Pad && c3 == Pad then
      match (SextetValue(c0), SextetValue(c1))
      case (Some(v0), Some(v1)) => if v1 % 16 == 0 then Some(DecodeGroup(v0, v1, 0, 0)[..1]) else None
      case _ => None
    else if c3 == Pad then
      match (SextetValue(c0), SextetValue(c1), SextetValue(c2))
      case (Some(v0), Some(v1), Some(v2)) => if v2 % 4 == 0 then Some(DecodeGroup(v0, v1, v2, 0)[..2]) else None
      case _ => None
    else
      DecodeFull(c0, c1, c2, c3)
  }

  function Decode(s: string): Option<seq<byte>>
    decreases |s|
  {
    if |s| == 0 then Some([])
    else if |s| < 4 then None
    else if |s| == 4 then DecodeLast(s[0], s[1], s[2], s[3])
    else
      match (DecodeFull(s[0], s[1], s[2], s[3]), Decode(s[4..]))
      case (Some(g), Some(rest)) => Some(g + rest)
      case _ => None
  }

  lemma GroupRoundTrip(b0: byte, b1: byte, b2: byte)
    ensures var s := EncodeGroup(b0, b1, b2);
            DecodeFull(s[0], s[1], s[2], s[3]) == Some([b0, b1, b2])
  {
    var x0, x1, x2 := b0 as int, b1 as int, b2 as int;
    var v0, v1, v2, v3 := x0 / 4, (x0 % 4) * 16 + x1 / 16, (x1 % 16) * 4 + x2 / 64, x2 % 64;
    SextetValueOfSextet(v0);
    SextetValueOfSextet(v1);
    SextetValueOfSextet(v2);
    SextetValueOfSextet(v3);
    assert v1 / 16 == x0 % 4 && v1 % 16 == x1 / 16;
    assert v2 / 4 == x1 % 16 && v2 % 4 == x2 / 64;
    assert DecodeGroup(v0, v1, v2, v3) == [b0, b1, b2];
  }

  lemma OneByteRoundTrip(b: seq<byte>)
    requires |b| == 1
    ensures Decode(Encode(b)) == Some(b)
  {
    var x0 := b[0] as int;
    var v0, v1 := x0 / 4, (x0 % 4) * 16;
    var s := Encode(b);
    assert s == [Sextet(v0), Sextet(v1), Pad, Pad];
    SextetValueOfSextet(v0);
    SextetValueOfSextet(v1);
    assert v1 / 16 == x0 % 4 && v1 % 16 == 0;
    assert Decode(s) == DecodeLast(s[0], s[1], s[2], s[3]);
    assert DecodeLast(s[0], s[1], s[2], s[3]) == Some(DecodeGroup(v0, v1, 0, 0)[..1]);
    var g := DecodeGroup(v0, v1, 0, 0);
    assert g[0] == b[0];
    assert g[..1] == [g[0]] && b == [b[0]];
  }

  lemma TwoBytesRoundTrip(b: seq<byte>)
    requires |b| == 2
    ensures Decode(Encode(b)) == Some(b)
  {
    var x0, x1 := b[0] as int, b[1] as int;
    var v0, v1, v2 := x0 / 4, (x0 % 4) * 16 + x1 / 16, (x1 % 16) * 4;
    var s := Encode(b);
    assert s == [Sextet(v0), Sextet(v1), Sextet(v2), Pad];
    SextetValueOfSextet(v0);
    SextetValueOfSextet(v1);
    SextetValueOfSextet(v2);
    PairArithmetic(x0, x1);
    assert Decode(s) == DecodeLast(s[0], s[1], s[2], s[3]);
    assert DecodeLast(s[0], s[1], s[2], s[3]) == Some(DecodeGroup(v0, v1, v2, 0)[..2]);
    var g := DecodeGroup(v0, v1, v2, 0);
    assert g[0] == b[0] && g[1] == b[1];
    assert g[..2] == b;
  }

  /** The bit shuffling of a two-byte group, on plain integers: the bytes come back. */
  lemma PairArithmetic(x0: int, x1: int)
    requires 0 <= x0 < 256 && 0 <= x1 < 256
    ensures var v0, v1, v2 := x0 / 4, (x0 % 4) * 16 + x1 / 16, (x1 % 16) * 4;
            && v2 % 4 == 0
            && v0 * 4 + v1 / 16 == x0 && (v1 % 16) * 16 + v2 / 4 == x1
  {
  }

  /** Decoding undoes encoding, for every byte string. */
  lemma {:induction false} DecodeEncode(b: seq<byte>)
    ensures Decode(Encode(b)) == Some(b)
    decreases |b|
  {
    if |b| == 1 {
      OneByteRoundTrip(b);
    } else if |b| == 2 {
      TwoBytesRoundTrip(b);
    } else if |b| == 3 {
      ThreeBytesRoundTrip(b);
    } else if |b| > 3 {
      DecodeEncode(b[3..]);
      LongerRoundTrip(b);
    }
  }

  /** The inductive step: a full leading group round-trips, and so does what follows it. */
  lemma LongerRoundTrip(b: seq<byte>)
    requires |b| > 3 && Decode(Encode(b[3..])) == Some(b[3..])
    ensures Decode(Encode(b)) == Some(b)
  {
    var g, t := EncodeGroup(b[0], b[1], b[2]), Encode(b[3..]);
    assert Encode(b) == g + t;
    GroupRoundTrip(b[0], b[1], b[2]);
    DecodeGroupThen(g, t, [b[0], b[1], b[2]], b[3..]);
    SplitThree(b);
  }

  lemma SplitThree(b: seq<byte>)
    requires |b| >= 3
    ensures b == [b[0], b[1], b[2]] + b[3..]
  {
    assert b[..3] == [b[0], b[1], b[2]];
    assert b == b[..3] + b[3..];
  }

  lemma ThreeBytesRoundTrip(b: seq<byte>)
    requires |b| == 3
    ensures Decode(Encode(b)) == Some(b)
  {
    var g := EncodeGroup(b[0], b[1], b[2]);
    assert Encode(b) == g + Encode(b[3..]);
    assert Encode(b) == g;
    GroupRoundTrip(b[0], b[1], b[2]);
    assert b == [b[0], b[1], b[2]];
  }

  /** A full group followed by more text decodes to the group's bytes, then the rest's. */
  lemma DecodeGroupThen(g: string, t: string, x: seq<byte>, y: seq<byte>)
    requires |g| == 4 && |t| > 0
    requires DecodeFull(g[0], g[1], g[2], g[3]) == Some(x) && Decode(t) == Some(y)
    ensures Decode(g + t) == Some(x + y)
  {
    var s := g + t;
    assert s[4..] == t;
    assert s[0] == g[0] && s[1] == g[1] && s[2] == g[2] && s[3] == g[3];
  }

  /** Encoding undoes decoding: a string that decodes is the encoding of what it decodes to. */
  lemma {:induction false} EncodeDecode(s: string, b: seq<byte>)
    requires Decode(s) == Some(b)
    ensures Encode(b) == s
    decreases |s|
  {
    if |s| == 4 {
      LastGroupInverse(s[0], s[1], s[2], s[3], b);
      assert s == [s[0], s[1], s[2], s[3]];
    } else if |s| > 4 {
      var g, rest := DecodeSplit(s, b);
      EncodeDecode(s[4..], rest);
      FullGroupInverse(s[0], s[1], s[2], s[3], g);
      FullThenRest(s, g, rest, b);
    }
  }

  /** A string longer than one group decodes group by group. */
  lemma DecodeSplit(s: string, b: seq<byte>) returns (g: seq<byte>, rest: seq<byte>)
    requires |s| > 4 && Decode(s) == Some(b)
    ensures DecodeFull(s[0], s[1], s[2], s[3]) == Some(g) && Decode(s[4..]) == Some(rest)
    ensures b == g + rest
  {
    g, rest := DecodeFull(s[0], s[1], s[2], s[3]).value, Decode(s[4..]).value;
  }

  /** The step of `EncodeDecode`: a full leading group, then the rest. */
  lemma FullThenRest(s: string, g: seq<byte>, rest: seq<byte>, b: seq<byte>)
    requires |s| > 4 && |g| == 3 && b == g + rest
    requires EncodeGroup(g[0], g[1], g[2]) == [s[0], s[1], s[2], s[3]] && Encode(rest) == s[4..]
    ensures Encode(b) == s
  {
    assert b[3..] == rest && b[0] == g[0] && b[1] == g[1] && b[2] == g[2];
    assert s[..4] == [s[0], s[1], s[2], s[3]];
    assert s == s[..4] + s[4..];
  }

  /** Four alphabet characters re-encode to themselves. */
  lemma FullGroupInverse(c0: char, c1: char, c2: char, c3: char, g: seq<byte>)
    requires DecodeFull(c0, c1, c2, c3) == Some(g)
    ensures |g| == 3 && EncodeGroup(g[0], g[1], g[2]) == [c0, c1, c2, c3]
  {
    var v0, v1, v2, v3 := SextetValue(c0).value, SextetValue(c1).value, SextetValue(c2).value, SextetValue(c3).value;
    var x0, x1, x2 := v0 * 4 + v1 / 16, (v1 % 16) * 16 + v2 / 4, (v2 % 4) * 64 + v3;
    GroupArithmetic(v0, v1, v2, v3);
    assert g == [x0 as byte, x1 as byte, x2 as byte];
    EncodeGroupOf(x0, x1, x2, v0, v1, v2, v3);
  }

  lemma EncodeGroupOf(x0: int, x1: int, x2: int, v0: nat, v1: nat, v2: nat, v3: nat)
    requires 0 <= x0 < 256 && 0 <= x1 < 256 && 0 <= x2 < 256
    requires x0 / 4 == v0 && (x0 % 4) * 16 + x1 / 16 == v1
    requires (x1 % 16) * 4 + x2 / 64 == v2 && x2 % 64 == v3
    ensures EncodeGroup(x0 as byte, x1 as byte, x2 as byte) == [Sextet(v0), Sextet(v1), Sextet(v2), Sextet(v3)]
  {
  }

  /** The bit shuffling of one group, on plain integers: the sextets come back. */
  lemma GroupArithmetic(v0: int, v1: int, v2: int, v3: int)
    requires 0 <= v0 < 64 && 0 <= v1 < 64 && 0 <= v2 < 64 && 0 <= v3 < 64
    ensures var x0, x1, x2 := v0 * 4 + v1 / 16, (v1 % 16) * 16 + v2 / 4, (v2 % 4) * 64 + v3;
            && 0 <= x0 < 256 && 0 <= x1 < 256 && 0 <= x2 < 256
            && x0 / 4 == v0 && (x0 % 4) * 16 + x1 / 16 == v1
            && (x1 % 16) * 4 + x2 / 64 == v2 && x2 % 64 == v3
  {
  }

  /** A last group that decodes re-encodes to itself, padding included. */
  lemma LastGroupInverse(c0: char, c1: char, c2: char, c3: char, b: seq<byte>)
    requires DecodeLast(c0, c1, c2, c3) == Some(b)
    ensures Encode(b) == [c0, c1, c2, c3]
  {
    if c2 == Pad && c3 == Pad {
      var v0, v1 := SextetValue(c0).value, SextetValue(c1).value;
      var x0 := v0 * 4 + v1 / 16;
      assert b == [x0 as byte];
      assert x0 / 4 == v0 && (x0 % 4) * 16 == v1;
    } else if c3 == Pad {
      var v0, v1, v2 := SextetValue(c0).value, SextetValue(c1).value, SextetValue(c2).value;
      var x0, x1 := v0 * 4 + v1 / 16, (v1 % 16) * 16 + v2 / 4;
      assert b == [x0 as byte, x1 as byte];
      assert x0 / 4 == v0 && (x0 % 4) * 16 + x1 / 16 == v1 && (x1 % 16) * 4 == v2;
    } else {
      FullGroupInverse(c0, c1, c2, c3, b);
      assert Encode(b) == EncodeGroup(b[0], b[1], b[2]) + Encode(b[3..]);
    }
  }

  /** Each byte string has one encoding only: the decoder accepts no other spelling of it. */
  lemma EncodingUnique(b: seq<byte>)
    ensures forall s :: Decode(s) == Some(b) ==> s == Encode(b)
  {
    forall s | Decode(s) == Some(b)
      ensures s == Encode(b)
    {
      EncodeDecode(s, b);
    }
  }

  /** Non-zero padding bits are refused: `QR==` would otherwise also spell `A`. */
  lemma NonZeroPaddingBitsRejected()
    ensures Decode(['Q', 'Q', Pad, Pad]) == Some([65])
    ensures Decode(['Q', 'R', Pad, Pad]) == None
  {
    assert SextetValue('Q') == Some(16);
    assert SextetValue('R') == Some(17);
    assert DecodeGroup(16, 16, 0, 0)[..1] == [65];
  }
}
