/**
 The traffic meter's arithmetic: totals over the metered outbounds, and rates
 from one tick to the next. Times are integer nanoseconds, and the division of
 bytes by seconds is exact before it is truncated.
 */
module Traffic {

  const NANOS_PER_SECOND := 1_000_000_000

  const OUTBOUND_TAGS: seq<string> := ["proxy", "direct"]

  /** One tick: the clock, and what every readable counter says. */
  datatype Reading = Reading(at: int, counters: map<string, int>)

  datatype Sample = Sample(rate: int, total: int)

  datatype Snapshot = Snapshot(up: Sample, down: Sample, at: int)

  function CounterName(tag: string, direction: string): string {
    "outbound>>>" + tag + ">>>traffic>>>" + direction
  }

  /** A counter that does not exist reads as 0. */
  function Read(r: Reading, name: string): int {
    if name in r.counters then r.counters[name] else 0
  }

  function Total(r: Reading, direction: string, tags: seq<string>): int {
    if tags == [] then 0 else Total(r, direction, tags[..|tags| - 1]) + Read(r, CounterName(tags[|tags| - 1], direction))
  }

  function PerSecond(delta: int, nanos: int): int {
    if delta <= 0 || nanos <= 0 then 0 else delta * NANOS_PER_SECOND / nanos
  }

  /** The rate shown at tick `i`: none at the first, then the gain since the tick before. */
  function RateAt(readings: seq<Reading>, direction: string, i: nat): int
    requires i < |readings|
  {
    if i == 0 then 0 else PerSecond(Gain(readings, direction, i), Interval(readings, i))
  }

  function Gain(readings: seq<Reading>, direction: string, i: nat): int
    requires 0 < i < |readings|
  {
    Total(readings[i], direction, OUTBOUND_TAGS) - Total(readings[i - 1], direction, OUTBOUND_TAGS)
  }

  function Interval(readings: seq<Reading>, i: nat): int
    requires 0 < i < |readings|
  {
    readings[i].at - readings[i - 1].at
  }

  function SnapshotAt(readings: seq<Reading>, i: nat): Snapshot
    requires i < |readings|
  {
    Snapshot(Sample(RateAt(readings, "uplink", i), Total(readings[i], "uplink", OUTBOUND_TAGS)),
             Sample(RateAt(readings, "downlink", i), Total(readings[i], "downlink", OUTBOUND_TAGS)),
             readings[i].at)
  }

  method ReadTotals(r: Reading) returns (up: int, down: int)
    ensures up == Total(r, "uplink", OUTBOUND_TAGS) && down == Total(r, "downlink", OUTBOUND_TAGS)
  {
    up, down := 0, 0;
    for i := 0 to |OUTBOUND_TAGS|
      invariant up == Total(r, "uplink", OUTBOUND_TAGS[..i]) && down == Total(r, "downlink", OUTBOUND_TAGS[..i])
    {
      up := up + Read(r, CounterName(OUTBOUND_TAGS[i], "uplink"));
      down := down + Read(r, CounterName(OUTBOUND_TAGS[i], "downlink"));
      assert OUTBOUND_TAGS[..i + 1][..i] == OUTBOUND_TAGS[..i];
    }
    assert OUTBOUND_TAGS[..|OUTBOUND_TAGS|] == OUTBOUND_TAGS;
  }

  /** The loop of pollTraffic over the ticks of one session: every snapshot it stores. */
  method PollTraffic(readings: seq<Reading>) returns (stored: seq<Snapshot>)
    ensures |stored| == |readings|
    ensures forall i :: 0 <= i < |stored| ==> stored[i] == SnapshotAt(readings, i)
  {
    stored := [];
    var last := Snapshot(Sample(0, 0), Sample(0, 0), 0);
    var haveLast := false;
    for i := 0 to |readings|
      invariant |stored| == i
      invariant forall k :: 0 <= k < i ==> stored[k] == SnapshotAt(readings, k)
      invariant haveLast == (i > 0)
      invariant haveLast ==> last == SnapshotAt(readings, i - 1)
    {
      var up, down := ReadTotals(readings[i]);
      var snap := Snapshot(Sample(0, up), Sample(0, down), readings[i].at);
      if haveLast {
        var dt := readings[i].at - last.at;
        snap := snap.(up := Sample(PerSecond(up - last.up.total, dt), up),
                      down := Sample(PerSecond(down - last.down.total, dt), down));
      }
      last := snap;
      haveLast := true;
      stored := stored + [snap];
    }
  }

  // ---- What the rates add up to ---------------------------------------------

  /** Byte-nanoseconds shown: the sum of rate times interval. */
  function Shown(readings: seq<Reading>, direction: string, n: nat): int
    requires n < |readings| || n == 0
  {
    if n == 0 then 0
    else Shown(readings, direction, n - 1) + RateAt(readings, direction, n) * Interval(readings, n)
  }

  /** Bytes gained, resets not counted. */
  function Gained(readings: seq<Reading>, direction: string, n: nat): int
    requires n < |readings| || n == 0
  {
    if n == 0 then 0
    else
      var g := Gain(readings, direction, n);
      Gained(readings, direction, n - 1) + if g > 0 then g else 0
  }

  lemma DivisionBounds(a: int, b: int)
    requires b > 0
    ensures a / b * b <= a < a / b * b + b
  {
    assert a == a / b * b + a % b;
  }

  /** One tick shows at most what was gained, and less than one byte per second too little. */
  lemma TickBounds(delta: int, nanos: int)
    ensures PerSecond(delta, nanos) >= 0
    ensures delta <= 0 || nanos <= 0 ==> PerSecond(delta, nanos) == 0
    ensures delta > 0 && nanos > 0 ==>
              PerSecond(delta, nanos) * nanos <= delta * NANOS_PER_SECOND < PerSecond(delta, nanos) * nanos + nanos
  {
    if delta > 0 && nanos > 0 { DivisionBounds(delta * NANOS_PER_SECOND, nanos); }
  }

  /** Over any number of ticks the meter never shows more than was gained, whatever clock and counters do. */
  lemma {:induction false} NeverShowsMoreThanGained(readings: seq<Reading>, direction: string, n: nat)
    requires n < |readings| || n == 0
    ensures 0 <= Gained(readings, direction, n)
    ensures Shown(readings, direction, n) <= Gained(readings, direction, n) * NANOS_PER_SECOND
  {
    if n > 0 {
      NeverShowsMoreThanGained(readings, direction, n - 1);
      TickBounds(Gain(readings, direction, n), Interval(readings, n));
    }
  }

  /** The clock moves forward and no counter is reset. */
  ghost predicate Monotone(readings: seq<Reading>, direction: string) {
    forall i :: 0 < i < |readings| ==> Interval(readings, i) > 0 && Gain(readings, direction, i) >= 0
  }

  /** With monotone counters it falls short by less than one byte for each second elapsed. */
  lemma {:induction false} FallsShortByLessThanAByteASecond(readings: seq<Reading>, direction: string, n: nat)
    requires 0 < n < |readings| && Monotone(readings, direction)
    ensures Gained(readings, direction, n) * NANOS_PER_SECOND - Shown(readings, direction, n) < readings[n].at - readings[0].at
  {
    TickBounds(Gain(readings, direction, n), Interval(readings, n));
    if n > 1 { FallsShortByLessThanAByteASecond(readings, direction, n - 1); }
  }

  /** A counter reset never shows as a negative rate, it shows as none. */
  lemma ResetShowsNothing(readings: seq<Reading>, direction: string, i: nat)
    requires i < |readings|
    ensures RateAt(readings, direction, i) >= 0
    ensures i > 0 && Gain(readings, direction, i) <= 0 ==> RateAt(readings, direction, i) == 0
  {
    if i > 0 { TickBounds(Gain(readings, direction, i), Interval(readings, i)); }
  }

  // ---- Which counters are read ----------------------------------------------

  /** A counter's value by its full name, 0 if there is none. */
  function Counter(r: Reading, name: string): int {
    if name in r.counters then r.counters[name] else 0
  }

  lemma TotalByName(r: Reading, direction: string)
    ensures Total(r, direction, OUTBOUND_TAGS) ==
            Counter(r, "outbound>>>" + "proxy" + ">>>traffic>>>" + direction)
            + Counter(r, "outbound>>>" + "direct" + ">>>traffic>>>" + direction)
  {
    assert OUTBOUND_TAGS[..1] == ["proxy"] && ["proxy"][..0] == [];
    assert Total(r, direction, ["proxy"]) == Total(r, direction, []) + Read(r, CounterName("proxy", direction));
  }

  /**
   What a tick stores, by counter name: the up sample is proxy plus direct uplink, the
   down sample their downlink; each rate belongs to its own totals and the time
   between the two ticks, and the first is 0.
   */
  lemma SnapshotByName(readings: seq<Reading>, i: nat)
    requires i < |readings|
    ensures var s, r := SnapshotAt(readings, i), readings[i];
            && s.up.total == Counter(r, "outbound>>>" + "proxy" + ">>>traffic>>>" + "uplink")
                             + Counter(r, "outbound>>>" + "direct" + ">>>traffic>>>" + "uplink")
            && s.down.total == Counter(r, "outbound>>>" + "proxy" + ">>>traffic>>>" + "downlink")
                               + Counter(r, "outbound>>>" + "direct" + ">>>traffic>>>" + "downlink")
            && s.at == r.at
            && (i == 0 ==> s.up.rate == 0 && s.down.rate == 0)
            && (i > 0 ==>
                  var last := SnapshotAt(readings, i - 1);
                  && s.up.rate == PerSecond(s.up.total - last.up.total, s.at - last.at)
                  && s.down.rate == PerSecond(s.down.total - last.down.total, s.at - last.at))
  {
    TotalByName(readings[i], "uplink");
    TotalByName(readings[i], "downlink");
  }
}
