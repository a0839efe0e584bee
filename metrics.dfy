/**
 * The metrics sink: request counters of fixed width, a bounded FIFO of recent
 * response times with the average derived from it, and the human-readable uptime.
 */
module Metrics {
  import opened Decimal

  /** Capacity of the response-time buffer (`maxResponseTimes`). */
  const MaxResponseTimes: nat := 1000

  const NanosPerMilli: nat := 1_000_000

  newtype u64 = x: int | 0 <= x < 0x1_0000_0000_0000_0000
  newtype i32 = x: int | -0x8000_0000 <= x < 0x8000_0000

  /** `atomic.AddUint64`: addition modulo 2^64. */
  function AddU64(a: u64, d: int): (r: u64)
    ensures a as int + d < 0x1_0000_0000_0000_0000 && 0 <= a as int + d ==> r as int == a as int + d
  {
    ((a as int + d) % 0x1_0000_0000_0000_0000) as u64
  }

  /** `atomic.AddInt32`: two's-complement addition, wrapping at 32 bits. */
  function AddI32(a: i32, d: int): (r: i32)
    ensures -0x8000_0000 <= a as int + d < 0x8000_0000 ==> r as int == a as int + d
  {
    ((a as int + d + 0x8000_0000) % 0x1_0000_0000 - 0x8000_0000) as i32
  }

  /** Incrementing then decrementing the gauge restores it, even across the wrap-around. */
  lemma IncrementThenDecrement(a: i32)
    ensures AddI32(AddI32(a, 1), -1) == a
  {
    if a as int == 0x7FFF_FFFF {
      assert AddI32(a, 1) as int == -0x8000_0000;
    }
  }

  /** A snapshot of the four counters. */
  datatype Counters = Counters(total: u64, successful: u64, failed: u64, active: i32)

  /** The last `n` elements of `s` (all of `s` when it is shorter), in order. */
  function LastN<T>(s: seq<T>, n: nat): (r: seq<T>)
    ensures |r| == if |s| <= n then |s| else n
    ensures r == s[|s| - |r|..]
  {
    if |s| <= n then s else s[|s| - n..]
  }

  /** Keeping the last `n` twice is keeping the last `n` of everything. */
  lemma LastNOfAppend<T>(a: seq<T>, b: seq<T>, n: nat)
    ensures LastN(LastN(a, n) + b, n) == LastN(a + b, n)
  {
    if |a| > n {
      var k := |a| - n;
      assert a + b == a[..k] + (LastN(a, n) + b);
      LastNOfSuffix(a[..k], LastN(a, n) + b, n);
    }
  }

  /** Once `x` alone has `n` elements, what stands before it is cut off. */
  lemma LastNOfSuffix<T>(p: seq<T>, x: seq<T>, n: nat)
    requires n <= |x|
    ensures LastN(p + x, n) == LastN(x, n)
  {
    assert (p + x)[|p| + |x| - n..] == x[|x| - n..];
  }

  /** Total of the samples, summed from the first. */
  function Sum(s: seq<nat>): nat
    decreases |s|
  {
    if s == [] then 0 else Sum(s[..|s| - 1]) + s[|s| - 1]
  }

  /** Total of the samples each already truncated to whole milliseconds. */
  function SumOfMillis(s: seq<nat>): nat
    decreases |s|
  {
    if s == [] then 0 else SumOfMillis(s[..|s| - 1]) + s[|s| - 1] / NanosPerMilli
  }

  /**
   * The average response time in milliseconds: 0 for no samples; otherwise the
   * summed nanosecond total truncated to whole milliseconds, divided by the count.
   */
  function AverageMillis(s: seq<nat>): real {
    if s == [] then 0.0 else (Sum(s) / NanosPerMilli) as real / |s| as real
  }

  /**
   * Truncating the total loses less than truncating each sample: the average is
   * taken of the summed total, so it is never below the mean of per-sample millis.
   */
  lemma {:induction false} TruncatedTotalDominates(s: seq<nat>)
    ensures SumOfMillis(s) <= Sum(s) / NanosPerMilli
    decreases |s|
  {
    if s != [] {
      var init := s[..|s| - 1];
      TruncatedTotalDominates(init);
      var x := s[|s| - 1];
      assert (Sum(init) / NanosPerMilli) * NanosPerMilli <= Sum(init);
      assert (x / NanosPerMilli) * NanosPerMilli <= x;
      assert (Sum(init) / NanosPerMilli + x / NanosPerMilli) * NanosPerMilli <= Sum(s);
      DivLowerBound(Sum(init) / NanosPerMilli + x / NanosPerMilli, Sum(s));
    }
  }

  lemma DivLowerBound(q: nat, n: nat)
    requires q * NanosPerMilli <= n
    ensures q <= n / NanosPerMilli
  {
  }

  /** Records the samples `ds` one after another into `buffer`. */
  function RecordAll(buffer: seq<nat>, ds: seq<nat>): seq<nat>
    decreases |ds|
  {
    if ds == [] then buffer else RecordAll(LastN(buffer + [ds[0]], MaxResponseTimes), ds[1..])
  }

  /**
   * After any number of recordings the buffer holds the last
   * min(count, 1000) samples of everything recorded, in insertion order.
   */
  lemma {:induction false} RecordAllKeepsNewest(buffer: seq<nat>, ds: seq<nat>)
    requires |buffer| <= MaxResponseTimes
    ensures RecordAll(buffer, ds) == LastN(buffer + ds, MaxResponseTimes)
    decreases |ds|
  {
    if ds != [] {
      var next := LastN(buffer + [ds[0]], MaxResponseTimes);
      RecordAllKeepsNewest(next, ds[1..]);
      LastNOfAppend(buffer + [ds[0]], ds[1..], MaxResponseTimes);
      assert buffer + [ds[0]] + ds[1..] == buffer + ds;
    }
  }

  class Metrics {
    var totalRequests: u64
    var successfulRequests: u64
    var failedRequests: u64
    var activeConnections: i32
    /** Recent response times in nanoseconds, oldest first. */
    var responseTimes: seq<nat>

    ghost predicate Valid()
      reads this
    {
      |responseTimes| <= MaxResponseTimes
    }

    function Snapshot(): Counters
      reads this`totalRequests, this`successfulRequests, this`failedRequests, this`activeConnections
    {
      Counters(totalRequests, successfulRequests, failedRequests, activeConnections)
    }

    /** `NewMetrics`: all counters zero, no samples. */
    constructor ()
      ensures Valid()
      ensures Snapshot() == Counters(0, 0, 0, 0) && responseTimes == []
    {
      totalRequests, successfulRequests, failedRequests, activeConnections := 0, 0, 0, 0;
      responseTimes := [];
    }

    method IncrementTotalRequests()
      modifies this`totalRequests
      ensures totalRequests == AddU64(old(totalRequests), 1)
    {
      totalRequests := AddU64(totalRequests, 1);
    }

    method IncrementSuccessfulRequests()
      modifies this`successfulRequests
      ensures successfulRequests == AddU64(old(successfulRequests), 1)
    {
      successfulRequests := AddU64(successfulRequests, 1);
    }

    method IncrementFailedRequests()
      modifies this`failedRequests
      ensures failedRequests == AddU64(old(failedRequests), 1)
    {
      failedRequests := AddU64(failedRequests, 1);
    }

    method IncrementActiveConnections()
      modifies this`activeConnections
      ensures activeConnections == AddI32(old(activeConnections), 1)
    {
      activeConnections := AddI32(activeConnections, 1);
    }

    method DecrementActiveConnections()
      modifies this`activeConnections
      ensures activeConnections == AddI32(old(activeConnections), -1)
    {
      activeConnections := AddI32(activeConnections, -1);
    }

    /** Appends a sample and, past capacity, drops the oldest one. */
    method RecordResponseTime(duration: nat)
      requires Valid()
      modifies this`responseTimes
      ensures Valid()
      ensures responseTimes == LastN(old(responseTimes) + [duration], MaxResponseTimes)
      ensures |old(responseTimes)| < MaxResponseTimes ==> responseTimes == old(responseTimes) + [duration]
      ensures |old(responseTimes)| == MaxResponseTimes ==> responseTimes == old(responseTimes)[1..] + [duration]
    {
      responseTimes := responseTimes + [duration];
      if |responseTimes| > MaxResponseTimes {
        responseTimes := responseTimes[1..];
      }
    }

    /** Sums the buffer in a loop and divides the truncated millisecond total by the count. */
    method GetAverageResponseTime() returns (average: real)
      ensures average == AverageMillis(responseTimes)
    {
      if |responseTimes| == 0 {
        return 0.0;
      }
      var total: nat := 0;
      var i := 0;
      while i < |responseTimes|
        invariant 0 <= i <= |responseTimes|
        invariant total == Sum(responseTimes[..i])
      {
        assert responseTimes[..i + 1][..i] == responseTimes[..i];
        total := total + responseTimes[i];
        i := i + 1;
      }
      assert responseTimes[..i] == responseTimes;
      average := (total / NanosPerMilli) as real / |responseTimes| as real;
    }
  }

  /** Uptime split into units. */
  datatype Uptime = Uptime(days: nat, hours: nat, minutes: nat, seconds: nat)

  /** `formatUptime`'s integer decomposition of whole seconds. */
  function Decompose(totalSeconds: nat): (u: Uptime)
    ensures u.seconds < 60 && u.minutes < 60 && u.hours < 24
    ensures u.days == totalSeconds / 86400
    ensures u.days * 86400 + u.hours * 3600 + u.minutes * 60 + u.seconds == totalSeconds
  {
    DecomposeAdds(totalSeconds);
    Uptime(totalSeconds / 86400, (totalSeconds / 3600) % 24, (totalSeconds / 60) % 60, totalSeconds % 60)
  }

  lemma DecomposeAdds(t: nat)
    ensures (t / 86400) * 86400 + ((t / 3600) % 24) * 3600 + ((t / 60) % 60) * 60 + t % 60 == t
  {
    var m := t / 60;
    var h := m / 60;
    assert t == m * 60 + t % 60;
    assert m == h * 60 + m % 60;
    assert h == (h / 24) * 24 + h % 24;
    assert t / 3600 == h;
    assert t / 86400 == h / 24;
  }

  /** One printed unit: its value and its suffix (days, hours, minutes, seconds in Russian). */
  datatype Field = Field(value: nat, unit: string)

  function Fields(u: Uptime): seq<Field> {
    [Field(u.days, "д"), Field(u.hours, "ч"), Field(u.minutes, "м"), Field(u.seconds, "с")]
  }

  /** Drops leading zero-valued units, always keeping the last one. */
  function DropLeadingZeros(fs: seq<Field>): (r: seq<Field>)
    ensures |r| <= |fs| && r == fs[|fs| - |r|..]
    ensures |fs| > 0 ==> 0 < |r|
    ensures |r| > 1 ==> r[0].value != 0
    ensures forall i :: 0 <= i < |fs| - |r| ==> fs[i].value == 0
    decreases |fs|
  {
    if |fs| > 1 && fs[0].value == 0 then
      var r := DropLeadingZeros(fs[1..]);
      assert fs[1..][|fs| - 1 - |r|..] == fs[|fs| - |r|..];
      r
    else
      fs
  }

  /** The units joined by single spaces, each as its number followed by its suffix. */
  function Render(fs: seq<Field>): string
    decreases |fs|
  {
    if fs == [] then ""
    else if |fs| == 1 then NatToString(fs[0].value) + fs[0].unit
    else NatToString(fs[0].value) + fs[0].unit + " " + Render(fs[1..])
  }

  /**
   * `formatUptime`: the text prints exactly the units from the largest non-zero
   * one down to seconds: all four if days > 0, three if hours > 0, two if
   * minutes > 0, otherwise seconds alone.
   */
  function FormatUptime(totalSeconds: nat): (text: string)
    ensures text == Render(DropLeadingZeros(Fields(Decompose(totalSeconds))))
  {
    FormatUnitsFromLargestUnit(Decompose(totalSeconds));
    FormatUnits(Decompose(totalSeconds))
  }

  /** The `Sprintf` formats of `formatUptime`, one per largest non-zero unit. */
  function FormatUnits(u: Uptime): string {
    var d, h, m, s := NatToString(u.days), NatToString(u.hours), NatToString(u.minutes), NatToString(u.seconds);
    if u.days > 0 then d + "д " + h + "ч " + m + "м " + s + "с"
    else if u.hours > 0 then h + "ч " + m + "м " + s + "с"
    else if u.minutes > 0 then m + "м " + s + "с"
    else s + "с"
  }

  /** The four formats agree with rendering the fields from the largest non-zero unit. */
  lemma FormatUnitsFromLargestUnit(u: Uptime)
    ensures FormatUnits(u) == Render(DropLeadingZeros(Fields(u)))
  {
    var fs := Fields(u);
    var d, h, m, s := NatToString(u.days), NatToString(u.hours), NatToString(u.minutes), NatToString(u.seconds);
    assert fs[1..] == [Field(u.hours, "ч"), Field(u.minutes, "м"), Field(u.seconds, "с")];
    assert fs[1..][1..] == [Field(u.minutes, "м"), Field(u.seconds, "с")];
    assert fs[1..][1..][1..] == [Field(u.seconds, "с")];
    var r3 := Render(fs[1..][1..][1..]);
    assert r3 == s + "с";
    var r2 := Render(fs[1..][1..]);
    assert r2 == m + "м" + " " + r3;
    var r1 := Render(fs[1..]);
    assert r1 == h + "ч" + " " + r2;
    assert Render(fs) == d + "д" + " " + r1;
    UnitsWithSpace();
    if u.days > 0 {
      assert DropLeadingZeros(fs) == fs;
      JoinFour(d, "д", h, "ч", m, "м", s, "с", " ");
    } else if u.hours > 0 {
      assert DropLeadingZeros(fs) == fs[1..];
      JoinThree(h, "ч", m, "м", s, "с", " ");
    } else if u.minutes > 0 {
      assert DropLeadingZeros(fs) == fs[1..][1..];
      JoinTwo(m, "м", s, "с", " ");
    } else {
      assert DropLeadingZeros(fs) == fs[1..][1..][1..];
    }
  }

  // Facts about string concatenation only, which regroup `+` or split a unit
  // from its space. They model nothing; they are stated apart so that
  // `FormatUnitsFromLargestUnit` need not search for them.

  lemma UnitsWithSpace()
    ensures "д " == "д" + " " && "ч " == "ч" + " " && "м " == "м" + " "
  {
  }

  lemma JoinTwo(m: string, mu: string, s: string, su: string, sp: string)
    ensures m + (mu + sp) + s + su == m + mu + sp + (s + su)
  {
  }

  lemma JoinThree(h: string, hu: string, m: string, mu: string, s: string, su: string, sp: string)
    ensures h + (hu + sp) + m + (mu + sp) + s + su == h + hu + sp + (m + mu + sp + (s + su))
  {
  }

  lemma JoinFour(d: string, du: string, h: string, hu: string, m: string, mu: string, s: string, su: string, sp: string)
    ensures d + (du + sp) + h + (hu + sp) + m + (mu + sp) + s + su ==
            d + du + sp + (h + hu + sp + (m + mu + sp + (s + su)))
  {
  }
}
