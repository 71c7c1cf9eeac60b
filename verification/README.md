# Network monitor: byte accounting

A Dafny model of the accounting core of `NetworkSpeedMonitor`, a desktop
overlay. The overlay shows live upload and download speed and the lifetime
data usage, and it keeps that usage in `total_usage.json` across restarts.
Four modules cover the core:

- `Counters`: the OS counter snapshot and the usage totals. Also the clamped
  per-direction delta (`max(curr - prev, 0)`) and the traffic a run of
  readings adds up to.
- `Units`: byte-to-megabyte and byte-to-megabit conversion, the `MB/s` or
  `Mbps` label, and the MB/GB choice made when a total is displayed.
- `UsageStore`: the usage file as the loader sees it. It is absent,
  unreadable, a non-object JSON value, or an object with natural-number
  values. `Load` handles each of these with the per-key fallback to the
  current counters, and `Save` builds the two-key record.
- `Sampler`: the monitor state (previous snapshot, totals, Mbps flag,
  sampling period) and the actions on it: start-up, one timer tick, the
  reset command and the unit toggle. `Run` and `Replay` chain ticks over a
  sequence of readings.

Every action is a pure function from the old state to the new one. Each
counter reading is a parameter. Each file write is returned as the record
written.

The "Reset Data Usage" command (main.py:74, 230-235) writes zero totals
and then runs a tick. That tick adds the bytes moved since the previous
tick and saves again. So a restart right after a reset finds those deltas,
not `{0, 0}`. `Sampler.ResetThenRestart` states this: the restart finds
zero only when neither counter grew.

## Model

| member | source | states |
|---|---|---|
| Counters.Delta | main.py:151-152 | Added to the previous reading, the delta reaches at least the new reading. When it is positive, it is exactly how far the counter advanced. Together these make it `max(curr - prev, 0)`. |
| Counters.DeltaIsClampedDifference | main.py:151-152 | The delta equals `curr - prev` if and only if the counter did not decrease. It is zero if and only if the counter did not grow. |
| Counters.TrafficTelescopes | main.py:151-165 | With no rollover over a run of readings, the summed clamped deltas equal the last reading minus the reading before the run. |
| Counters.TrafficCoversNetAdvance | main.py:151-165 | With or without rollovers, the summed clamped deltas are at least the net advance of the counter. A rollover can push the count above the net advance, never below it. |
| Units.BytesToMegabytes | main.py:106-107 | The result times 1048576 gives back the byte count. It is non-negative for non-negative input. |
| Units.BytesToMegabits | main.py:109-110 | The result times 1048576 gives back eight times the byte count. |
| Units.MegabitsAreEightMegabytes | main.py:106-110 | The megabit value is always eight times the megabyte value. |
| Units.SpeedLabel | main.py:155-162 | The label is "Mbps" if and only if the flag is set, and "MB/s" if and only if it is not. |
| Units.DisplayRate | main.py:155-162 | The shown rate scaled back by 1048576 is the byte rate, or eight times it when the Mbps flag is set. It is non-negative for a non-negative byte rate. |
| Units.MbpsRateIsEightfold | main.py:155-162 | For the same byte rate, the rate shown with the flag set is eight times the rate shown without it. |
| Units.FormatSize | main.py:138-144 | The unit is MB if and only if the count is below 1024^3 bytes, and GB otherwise. The amount scales back to the byte count. It lies in [0, 1024) for MB and is at least 1 for GB. |
| UsageStore.GetOr | main.py:117-118 | A present key gives its stored value, and a missing key gives the default. |
| UsageStore.Load | main.py:112-123 | An absent, unreadable or non-object file gives the current counters. For an object, each key present gives its stored value, and each missing key falls back to its own counter. |
| UsageStore.Save | main.py:125-130 | The record is an object with exactly the keys `total_upload` and `total_download`, holding the in-memory totals. |
| UsageStore.SaveLoadRoundTrip | main.py:112-132 | Loading a saved record returns the saved totals, whatever fallback counters are supplied. |
| UsageStore.LoadSaveLoadIdempotent | main.py:112-132 | Loading, saving and loading again returns the same totals as the first load. |
| UsageStore.LoadIgnoresCountersIffComplete | main.py:112-123 | The loaded totals are independent of the current counters if and only if the file is an object with both keys. |
| Sampler.Rate | main.py:151-160 | The byte rate times the period in milliseconds is 1000 times the delta. It is non-negative, and zero if and only if the delta is zero. |
| Sampler.Start | main.py:40-65 | At start-up the counters just read become the baseline and rates show in MB/s. The totals come from the file. An unusable file gives the current counters, and in an object each missing key falls back to its own counter. |
| Sampler.Advance | main.py:151-184 | Each total grows by exactly how far its counter advanced, and stays put when the counter went back. The reading becomes the next baseline, and the flag and period are kept. |
| Sampler.ShownRateValue | main.py:153-162 | The rate shown for a delta, times 1048576 and the period in milliseconds, is 1000 times the delta, or 8000 times it in Mbps. |
| Sampler.Show | main.py:151-162 | The rates shown are non-negative, and each is zero if and only if its counter did not grow. The unit is "Mbps" when the flag is set and "MB/s" when it is not. Each rate is the clamped delta divided by the nominal period in seconds and by 1048576, and 8 times that in Mbps. |
| Sampler.Tick | main.py:146-184 | Each total grows by exactly how far its counter advanced, and stays put when the counter went back. The reading becomes the next baseline and the settings are kept. Rates are non-negative, and zero if and only if the counter did not grow. The unit is "Mbps" when the flag is set and "MB/s" when it is not. Each rate is the clamped delta over the nominal period in units of 1048576 bytes per second, and 8 times that in Mbps. The saved record reloads as the new totals. |
| Sampler.MbpsShowsEightTimesMBps | main.py:155-162 | For the same state and reading, a tick with the Mbps flag shows eight times the rates of a tick without it. |
| Sampler.ToggleSpeedUnit | main.py:221-223 | The toggle flips the flag, and its tick shows the rates in the new unit: the clamped delta over the nominal period in units of 1048576 bytes per second, times 8 when switching to Mbps. That tick still adds the clamped deltas to the totals and saves them. It also moves the baseline and keeps the period. |
| Sampler.ToggleTwiceRestoresUnit | main.py:221-223 | Two toggles restore the flag, whatever readings were taken in between. |
| Sampler.Reset | main.py:230-235 | The first record written reloads as zero totals. After the follow-on tick, each total equals that tick's clamped delta. That tick keeps the period and the unit flag, and it saves a record that reloads as those totals. It shows the rates for its deltas in the current unit. |
| Sampler.ResetThenRestart | main.py:230-235 | A restart after a reset finds the follow-on tick's deltas. It finds zero totals if and only if neither counter grew. |
| Sampler.Run | main.py:146-186 | A run of ticks (their accounting half) keeps the settings and never lowers a total. It ends with the last reading as its baseline. |
| Sampler.RunAddsTraffic | main.py:151-165 | Over a run, each total grows by the summed clamped deltas of its counter. |
| Sampler.RunWithoutRolloverAddsNetAdvance | main.py:151-165 | With no counter going back, a run adds to each total exactly the net advance of its counter. |
| Sampler.Replay | main.py:146-186 | Ticking through the readings one by one gives the state `Run` defines. Its totals are the start totals plus the summed clamped deltas. |
| Sampler.FirstTickScenario | main.py:146-165 | Worked example. Start with no file at (1000000, 2000000), then tick at (1100000, 2050000). The totals are seeded to the first reading and then grow to the second. The upload rate is 100000 bytes/s in MB/s. |

## Left out

- The Tkinter window: labels and their visibility, dragging, the context menu, the hide/restore hover strip and the window geometry (main.py:33-100, 188-277). This is window-system state. The speed-display and total-display toggles and the restore action each run one tick, and `Tick` models that tick. Their flags only decide what the labels show.
- The single-instance mutex (main.py:11-30, 279-292). These are foreign Windows calls.
- The `psutil.net_io_counters()` reads. Each reading is a `Snapshot` parameter.
- File I/O, JSON encoding, `flush`/`fsync`, and a write failure swallowed in save. The file is the value `Load` receives, and a save is the record it returns. When `open` itself fails (main.py:131, swallowed at 135-136), the old record stays in place, and the next start loads those stale totals as a parsed object. A write torn after the truncating open leaves a file the next start sees as `Unreadable`.
- JSON values of the wrong type under a present key. The loader returns them unchecked. The model takes stored values to be natural numbers.
- Timer scheduling with `after`/`after_cancel` (main.py:101-104, 186). Ticks are modelled as a sequence of readings. The rate divides by the nominal period, not by the measured elapsed time, as the code does.
- Sampler.Rate: the period is a positive `IntervalMs`. The code does not check it. A zero period would raise a division error in the tick, but the only caller passes 1000 (main.py:289).
- Floating-point rounding and the two-decimal string rendering (main.py:141, 144, 168-169, 175-176). Rates and sizes are exact `real` values, and only the unit choice and scale are modelled.
- The counters are unbounded naturals. Python integers do not wrap, so no width is modelled.
