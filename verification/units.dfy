/**
 Display units: the rate shown per tick (megabytes or megabits per second)
 and the size shown for a running total (MB or GB, binary multiples).
 Values are modelled over `real`, an idealisation of the floating point the
 monitor computes with; only the unit choice and the scale are modelled, not
 the two-decimal rendering.
 */
module Units {

  const BytesPerMegabyte: real := 1048576.0
  const MegabytesPerGigabyte: real := 1024.0
  const BytesPerGigabyte: nat := 1024 * 1024 * 1024

  /** Binary megabytes in `bytes` bytes. */
  function BytesToMegabytes(bytes: real): (mb: real)
    ensures mb * BytesPerMegabyte == bytes
    ensures bytes >= 0.0 ==> mb >= 0.0
  {
    bytes / BytesPerMegabyte
  }

  /** Megabits (of 1048576 bits) in `bytes` bytes. */
  function BytesToMegabits(bytes: real): (mbit: real)
    ensures mbit * BytesPerMegabyte == 8.0 * bytes
    ensures bytes >= 0.0 ==> mbit >= 0.0
  {
    (bytes * 8.0) / BytesPerMegabyte
  }

  /** The two conversions agree up to the factor of eight bits per byte. */
  lemma MegabitsAreEightMegabytes(bytes: real)
    ensures BytesToMegabits(bytes) == 8.0 * BytesToMegabytes(bytes)
  {
  }

  /** The unit label shown beside a rate, chosen by the Mbps flag. */
  function SpeedLabel(mbps: bool): (shown: string)
    ensures shown == "Mbps" <==> mbps
    ensures shown == "MB/s" <==> !mbps
  {
    if mbps then "Mbps" else "MB/s"
  }

  /** A byte rate converted to the unit the Mbps flag selects. */
  function DisplayRate(bytesPerSecond: real, mbps: bool): (v: real)
    ensures mbps ==> v * BytesPerMegabyte == 8.0 * bytesPerSecond
    ensures !mbps ==> v * BytesPerMegabyte == bytesPerSecond
    ensures bytesPerSecond >= 0.0 ==> v >= 0.0
  {
    if mbps then BytesToMegabits(bytesPerSecond) else BytesToMegabytes(bytesPerSecond)
  }

  /** Switching the flag on multiplies the shown rate by eight. */
  lemma MbpsRateIsEightfold(bytesPerSecond: real)
    ensures DisplayRate(bytesPerSecond, true) == 8.0 * DisplayRate(bytesPerSecond, false)
  {
    MegabitsAreEightMegabytes(bytesPerSecond);
  }

  datatype SizeUnit = MB | GB

  /** A running total as shown: an amount in a unit. */
  datatype Size = Size(amount: real, unit: SizeUnit)

  /** Scale a byte count to megabytes below 1024 MB, and to gigabytes from there on. */
  function FormatSize(bytes: nat): (s: Size)
    ensures s.unit == MB <==> bytes < BytesPerGigabyte
    ensures s.unit == MB ==> s.amount * BytesPerMegabyte == bytes as real
    ensures s.unit == GB ==> s.amount * MegabytesPerGigabyte * BytesPerMegabyte == bytes as real
    ensures 0.0 <= s.amount
    ensures s.unit == MB ==> s.amount < MegabytesPerGigabyte
    ensures s.unit == GB ==> 1.0 <= s.amount
  {
    var mb := BytesToMegabytes(bytes as real);
    if mb < 1024.0 then Size(mb, MB)
    else
      var gb := mb / 1024.0;
      Size(gb, GB)
  }
}
