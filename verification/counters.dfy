/**
 Byte counters and the running usage totals they feed.

 The operating system exposes two cumulative counters (bytes sent and bytes
 received over all interfaces). They normally only grow, but may fall back
 towards zero after a reboot or a rollover. The monitor turns consecutive
 readings into per-direction deltas, clamping a backwards step to zero.
 */
module Counters {

  /** One reading of the OS counters, taken at one instant. */
  datatype Snapshot = Snapshot(sent: nat, recv: nat)

  /** Bytes uploaded and downloaded since the first run or the last reset. */
  datatype Totals = Totals(up: nat, down: nat)

  /** Bytes moved in one direction between two readings of a counter.
      When the counter went backwards nothing is counted. */
  function Delta(prev: nat, curr: nat): (d: nat)
    ensures prev + d >= curr
    ensures d > 0 ==> prev + d == curr
  {
    var diff := curr - prev;
    if diff > 0 then diff else 0
  }

  /** The clamp, read both ways: the delta is the plain difference exactly
      when the counter did not decrease, and zero exactly when it did not grow. */
  lemma DeltaIsClampedDifference(prev: nat, curr: nat)
    ensures curr >= prev <==> Delta(prev, curr) == curr - prev
    ensures curr <= prev <==> Delta(prev, curr) == 0
  {
  }

  /** The sequence of one direction's readings, in order. */
  function SentReadings(snaps: seq<Snapshot>): seq<nat>
  {
    seq(|snaps|, i requires 0 <= i < |snaps| => snaps[i].sent)
  }

  function RecvReadings(snaps: seq<Snapshot>): seq<nat>
  {
    seq(|snaps|, i requires 0 <= i < |snaps| => snaps[i].recv)
  }

  /** Dropping the first snapshot drops the first reading of each direction. */
  lemma ReadingsTail(snaps: seq<Snapshot>)
    requires |snaps| > 0
    ensures SentReadings(snaps)[1..] == SentReadings(snaps[1..])
    ensures RecvReadings(snaps)[1..] == RecvReadings(snaps[1..])
  {
  }

  /** Total bytes counted in one direction when the counter, last read as
      `prev`, is read successively as `readings`: the sum of clamped deltas. */
  function Traffic(prev: nat, readings: seq<nat>): nat
    decreases |readings|
  {
    if |readings| == 0 then 0
    else Delta(prev, readings[0]) + Traffic(readings[0], readings[1..])
  }

  /** A counter that never went backwards over the whole run: each reading
      is at least the one before it, starting from `prev`. */
  ghost predicate NonDecreasing(prev: nat, readings: seq<nat>)
    decreases |readings|
  {
    |readings| > 0 ==> prev <= readings[0] && NonDecreasing(readings[0], readings[1..])
  }

  /** Without a rollover the counted traffic is exactly how far the counter
      advanced: the deltas telescope. */
  lemma {:induction false} TrafficTelescopes(prev: nat, readings: seq<nat>)
    requires |readings| > 0
    requires NonDecreasing(prev, readings)
    ensures Traffic(prev, readings) == readings[|readings| - 1] - prev
    decreases |readings|
  {
    if |readings| > 1 {
      var rest := readings[1..];
      TrafficTelescopes(readings[0], rest);
      assert rest[|rest| - 1] == readings[|readings| - 1];
    }
  }

  /** Whatever happens in between, the counted traffic is at least the net
      advance of the counter from `prev` to the last reading; a rollover can
      only make the count exceed the net advance, never fall below it. */
  lemma {:induction false} TrafficCoversNetAdvance(prev: nat, readings: seq<nat>)
    requires |readings| > 0
    ensures Traffic(prev, readings) >= readings[|readings| - 1] - prev
    decreases |readings|
  {
    if |readings| > 1 {
      var rest := readings[1..];
      TrafficCoversNetAdvance(readings[0], rest);
      assert rest[|rest| - 1] == readings[|readings| - 1];
    }
  }
}
