/**
 The sampling-and-accounting loop of the network monitor.

 Each tick reads the OS counters (here: a snapshot passed in), derives the
 clamped per-direction deltas, shows them as a rate, adds them to the
 running totals, saves the totals, and keeps the snapshot for the next
 tick. Start-up, the reset command and the unit toggle are built from the
 same pieces. Every function is pure: the state before an action goes in,
 the state after it (and whatever was shown or written) comes out.
 */
module Sampler {
  import opened Counters
  import opened Units
  import opened UsageStore

  /** The sampling period in milliseconds; a period of zero would divide by zero. */
  type IntervalMs = ms: nat | ms > 0 witness 1000

  /** What the accounting loop keeps between ticks. */
  datatype MonitorState = MonitorState(
    prev: Snapshot,          // the counters as last read
    totals: Totals,          // bytes counted since first run or last reset
    mbps: bool,              // show rates in megabits rather than megabytes per second
    intervalMs: IntervalMs)  // nominal time between two ticks

  /** The rates shown for one tick, with their unit label. */
  datatype SpeedSample = SpeedSample(upload: real, download: real, unit: string)

  /** Everything one tick produces: what it shows, the state it leaves, and
      the record it writes to the usage file. */
  datatype TickResult = TickResult(sample: SpeedSample, next: MonitorState, saved: Json)

  /** The command that zeroes the totals writes a record first, then ticks. */
  datatype ResetResult = ResetResult(cleared: Json, tick: TickResult)

  /** Bytes per second for `delta` bytes over one nominal period: the
      period is taken as configured, not as measured. */
  function Rate(delta: nat, intervalMs: IntervalMs): (bps: real)
    ensures bps * (intervalMs as real) == (delta as real) * 1000.0
    ensures bps >= 0.0
    ensures bps == 0.0 <==> delta == 0
  {
    var seconds := intervalMs as real / 1000.0;
    delta as real / seconds
  }

  /** `shown` is the rate displayed for `delta` bytes moved over one nominal
      period of `intervalMs` milliseconds: the delta divided by the period in
      seconds and by 1048576, and eight times that in Mbps. */
  predicate ShowsRate(shown: real, delta: nat, intervalMs: IntervalMs, mbps: bool)
  {
    shown * BytesPerMegabyte * (intervalMs as real) == (if mbps then 8.0 else 1.0) * 1000.0 * (delta as real)
  }

  /** The rate shown for `delta` bytes over one period, scaled back by the
      megabyte and the period, is 1000 times the delta (8000 times in Mbps). */
  lemma ShownRateValue(delta: nat, intervalMs: IntervalMs, mbps: bool)
    ensures ShowsRate(DisplayRate(Rate(delta, intervalMs), mbps), delta, intervalMs, mbps)
  {
  }

  /** The state right after start-up: the counters just read become the
      previous snapshot, the totals come from the usage file, and rates are
      shown in megabytes per second. */
  function Start(file: StoredFile, current: Snapshot, intervalMs: IntervalMs): (m: MonitorState)
    ensures m.prev == current && !m.mbps && m.intervalMs == intervalMs
    ensures !Usable(file) ==> m.totals == Totals(current.sent, current.recv)
    ensures Usable(file) && UploadKey in file.doc.fields ==> m.totals.up == file.doc.fields[UploadKey]
    ensures Usable(file) && DownloadKey in file.doc.fields ==> m.totals.down == file.doc.fields[DownloadKey]
    ensures Usable(file) && UploadKey !in file.doc.fields ==> m.totals.up == current.sent
    ensures Usable(file) && DownloadKey !in file.doc.fields ==> m.totals.down == current.recv
  {
    MonitorState(current, Load(file, current), false, intervalMs)
  }

  /** The accounting half of a tick: add the clamped deltas to the totals
      and keep the reading as the baseline for the next tick. */
  function Advance(m: MonitorState, now: Snapshot): (n: MonitorState)
    // the totals grow by exactly how far each counter advanced, and not at all when it went back
    ensures now.sent >= m.prev.sent ==> n.totals.up == m.totals.up + (now.sent - m.prev.sent)
    ensures now.sent < m.prev.sent ==> n.totals.up == m.totals.up
    ensures now.recv >= m.prev.recv ==> n.totals.down == m.totals.down + (now.recv - m.prev.recv)
    ensures now.recv < m.prev.recv ==> n.totals.down == m.totals.down
    // the reading just taken is the baseline of the next tick; the settings stay
    ensures n.prev == now
    ensures n.mbps == m.mbps && n.intervalMs == m.intervalMs
  {
    var sentDiff := Delta(m.prev.sent, now.sent);
    var recvDiff := Delta(m.prev.recv, now.recv);
    m.(prev := now, totals := Totals(m.totals.up + sentDiff, m.totals.down + recvDiff))
  }

  /** The display half of a tick: the rates for the bytes moved since the
      last reading, in the unit the flag selects. */
  function Show(m: MonitorState, now: Snapshot): (s: SpeedSample)
    ensures s.upload >= 0.0 && s.download >= 0.0
    ensures s.upload == 0.0 <==> now.sent <= m.prev.sent
    ensures s.download == 0.0 <==> now.recv <= m.prev.recv
    ensures s.unit == (if m.mbps then "Mbps" else "MB/s")
    // each rate is the delta over the nominal period, in 2^20 bytes (times 8 for bits) per second
    ensures ShowsRate(s.upload, Delta(m.prev.sent, now.sent), m.intervalMs, m.mbps)
    ensures ShowsRate(s.download, Delta(m.prev.recv, now.recv), m.intervalMs, m.mbps)
  {
    var sentRate := Rate(Delta(m.prev.sent, now.sent), m.intervalMs);
    var recvRate := Rate(Delta(m.prev.recv, now.recv), m.intervalMs);
    ShownRateValue(Delta(m.prev.sent, now.sent), m.intervalMs, m.mbps);
    ShownRateValue(Delta(m.prev.recv, now.recv), m.intervalMs, m.mbps);
    SpeedSample(
      DisplayRate(sentRate, m.mbps),
      DisplayRate(recvRate, m.mbps),
      SpeedLabel(m.mbps))
  }

  /** One tick of the loop on the counters read now: show the rates, count
      the bytes, save the totals, move the baseline. */
  function Tick(m: MonitorState, now: Snapshot): (r: TickResult)
    // the totals grow by exactly how far each counter advanced, and not at all when it went back
    ensures now.sent >= m.prev.sent ==> r.next.totals.up == m.totals.up + (now.sent - m.prev.sent)
    ensures now.sent < m.prev.sent ==> r.next.totals.up == m.totals.up
    ensures now.recv >= m.prev.recv ==> r.next.totals.down == m.totals.down + (now.recv - m.prev.recv)
    ensures now.recv < m.prev.recv ==> r.next.totals.down == m.totals.down
    // the reading just taken is the baseline of the next tick; the settings stay
    ensures r.next.prev == now
    ensures r.next.mbps == m.mbps && r.next.intervalMs == m.intervalMs
    // the rates shown are never negative, and zero exactly when the counter did not grow
    ensures r.sample.upload >= 0.0 && r.sample.download >= 0.0
    ensures r.sample.upload == 0.0 <==> now.sent <= m.prev.sent
    ensures r.sample.download == 0.0 <==> now.recv <= m.prev.recv
    ensures r.sample.unit == (if m.mbps then "Mbps" else "MB/s")
    ensures ShowsRate(r.sample.upload, Delta(m.prev.sent, now.sent), m.intervalMs, m.mbps)
    ensures ShowsRate(r.sample.download, Delta(m.prev.recv, now.recv), m.intervalMs, m.mbps)
    // the record written restores the new totals on the next start
    ensures forall c :: Load(Parsed(r.saved), c) == r.next.totals
  {
    var next := Advance(m, now);
    var sample := Show(m, now);
    TickResult(sample, next, Save(next.totals))
  }

  /** For the same counters, the rate shown with the Mbps flag set is eight
      times the rate shown without it. */
  lemma MbpsShowsEightTimesMBps(m: MonitorState, now: Snapshot)
    ensures Tick(m.(mbps := true), now).sample.upload == 8.0 * Tick(m.(mbps := false), now).sample.upload
    ensures Tick(m.(mbps := true), now).sample.download == 8.0 * Tick(m.(mbps := false), now).sample.download
  {
  }

  /** The unit toggle flips the flag and then ticks. */
  function ToggleSpeedUnit(m: MonitorState, now: Snapshot): (r: TickResult)
    ensures r.next.mbps == !m.mbps
    ensures r.sample.unit == (if m.mbps then "MB/s" else "Mbps")
    // the toggle's tick still counts the bytes moved and saves them, under the same period
    ensures r.next.totals == Totals(m.totals.up + Delta(m.prev.sent, now.sent),
                                    m.totals.down + Delta(m.prev.recv, now.recv))
    ensures r.next.prev == now && r.next.intervalMs == m.intervalMs
    ensures forall c :: Load(Parsed(r.saved), c) == r.next.totals
    // its rates are shown in the new unit
    ensures ShowsRate(r.sample.upload, Delta(m.prev.sent, now.sent), m.intervalMs, !m.mbps)
    ensures ShowsRate(r.sample.download, Delta(m.prev.recv, now.recv), m.intervalMs, !m.mbps)
  {
    Tick(m.(mbps := !m.mbps), now)
  }

  /** Toggling the unit twice brings the flag back, whatever was read in between. */
  lemma ToggleTwiceRestoresUnit(m: MonitorState, first: Snapshot, second: Snapshot)
    ensures ToggleSpeedUnit(ToggleSpeedUnit(m, first).next, second).next.mbps == m.mbps
  {
  }

  /** The reset command: zero the totals, write them, then tick. */
  function Reset(m: MonitorState, now: Snapshot): (r: ResetResult)
    // the first record written holds zero totals
    ensures forall c :: Load(Parsed(r.cleared), c) == Totals(0, 0)
    // after the follow-on tick each total is that tick's delta alone
    ensures r.tick.next.totals == Totals(Delta(m.prev.sent, now.sent), Delta(m.prev.recv, now.recv))
    ensures r.tick.next.prev == now && r.tick.next.mbps == m.mbps
    ensures r.tick.next.intervalMs == m.intervalMs
    // the follow-on tick saves its own totals over the zero record
    ensures forall c :: Load(Parsed(r.tick.saved), c) == r.tick.next.totals
    // and shows the rates for the bytes moved since the last tick
    ensures ShowsRate(r.tick.sample.upload, Delta(m.prev.sent, now.sent), m.intervalMs, m.mbps)
    ensures ShowsRate(r.tick.sample.download, Delta(m.prev.recv, now.recv), m.intervalMs, m.mbps)
    ensures r.tick.sample.unit == (if m.mbps then "Mbps" else "MB/s")
  {
    var zeroed := m.(totals := Totals(0, 0));
    ResetResult(Save(zeroed.totals), Tick(zeroed, now))
  }

  /** A restart right after a reset does not necessarily find zero totals:
      the follow-on tick saved its own deltas. It finds zero exactly when
      neither counter grew between the last tick and the reset. */
  lemma ResetThenRestart(m: MonitorState, now: Snapshot, later: Snapshot, intervalMs: IntervalMs)
    ensures Start(Parsed(Reset(m, now).tick.saved), later, intervalMs).totals
         == Totals(Delta(m.prev.sent, now.sent), Delta(m.prev.recv, now.recv))
    ensures Start(Parsed(Reset(m, now).tick.saved), later, intervalMs).totals == Totals(0, 0)
        <==> now.sent <= m.prev.sent && now.recv <= m.prev.recv
  {
  }

  /** The loop run over a sequence of readings: the state each tick leaves
      (the next state of `Tick` is the one `Advance` computes), chained. */
  function Run(m: MonitorState, readings: seq<Snapshot>): (r: MonitorState)
    ensures r.mbps == m.mbps && r.intervalMs == m.intervalMs
    ensures |readings| > 0 ==> r.prev == readings[|readings| - 1]
    ensures m.totals.up <= r.totals.up && m.totals.down <= r.totals.down
    decreases |readings|
  {
    if |readings| == 0 then m
    else Run(Advance(m, readings[0]), readings[1..])
  }

  /** Over any run, each total grows by the traffic counted from its counter. */
  lemma {:induction false} RunAddsTraffic(m: MonitorState, readings: seq<Snapshot>)
    ensures Run(m, readings).totals == Totals(
      m.totals.up + Traffic(m.prev.sent, SentReadings(readings)),
      m.totals.down + Traffic(m.prev.recv, RecvReadings(readings)))
    decreases |readings|
  {
    if |readings| > 0 {
      var rest := readings[1..];
      RunAddsTraffic(Advance(m, readings[0]), rest);
      ReadingsTail(readings);
    }
  }

  /** Without a rollover, a run adds to each total exactly how far its
      counter advanced from the reading before the run to the last one. */
  lemma {:induction false} RunWithoutRolloverAddsNetAdvance(m: MonitorState, readings: seq<Snapshot>)
    requires |readings| > 0
    requires NonDecreasing(m.prev.sent, SentReadings(readings))
    requires NonDecreasing(m.prev.recv, RecvReadings(readings))
    ensures Run(m, readings).totals.up + m.prev.sent == m.totals.up + readings[|readings| - 1].sent
    ensures Run(m, readings).totals.down + m.prev.recv == m.totals.down + readings[|readings| - 1].recv
  {
    RunAddsTraffic(m, readings);
    TrafficTelescopes(m.prev.sent, SentReadings(readings));
    TrafficTelescopes(m.prev.recv, RecvReadings(readings));
  }

  /** Successive timer ticks carried out one after another, keeping the
      state each tick leaves for the next. */
  method Replay(m: MonitorState, readings: seq<Snapshot>) returns (r: MonitorState)
    ensures r == Run(m, readings)
    ensures r.totals == Totals(
      m.totals.up + Traffic(m.prev.sent, SentReadings(readings)),
      m.totals.down + Traffic(m.prev.recv, RecvReadings(readings)))
  {
    r := m;
    var i := 0;
    while i < |readings|
      invariant 0 <= i <= |readings|
      invariant Run(r, readings[i..]) == Run(m, readings)
    {
      assert readings[i..][1..] == readings[i + 1..];
      r := Advance(r, readings[i]);
      i := i + 1;
    }
    RunAddsTraffic(m, readings);
  }

  /** Start-up with no usage file, then one tick a second later: the totals
      are seeded from the counters and grow by the bytes moved. */
  lemma FirstTickScenario()
    ensures var m := Start(Absent, Snapshot(1_000_000, 2_000_000), 1000);
            var r := Tick(m, Snapshot(1_100_000, 2_050_000));
            && m.totals == Totals(1_000_000, 2_000_000)
            && r.next.totals == Totals(1_100_000, 2_050_000)
            && r.sample.upload * 1048576.0 == 100000.0
            && r.sample.unit == "MB/s"
  {
  }
}
