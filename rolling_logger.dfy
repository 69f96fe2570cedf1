/** The pandas loggers of the single-hat board (the top-level script, with a
    fixed offset table, and the mobile one, with offsets per device serial).
    Every 30 s they read the eight channels into a buffer that keeps the last
    600 rows, and hand the buffer to the 5-minute aggregation whenever the
    `.seconds` part of the time since the last hand-over reaches 300. Sensor
    reads are not guarded: a failure ends the program. */
module RollingLogger {
  import opened Common
  import opened Clock
  import opened PiSerial

  /** `tail(600)`: rows kept in the buffer. */
  const BufferRows: nat := 600

  /** The trigger threshold, in seconds. */
  const TriggerSeconds: nat := 300

  const SecondsPerDay: nat := 86400

  const ChannelCount: nat := 8

  /** Where `read_sensors` takes its offsets from. */
  datatype OffsetSource =
    | FixedTable                       // the literal `offset_dict` keyed by channel number
    | PerSerial(table: map<string, real>)  // this board's entry of the offsets file

  /** The literal `offset_dict` of the top-level script. */
  const FixedOffsets: map<nat, real> :=
    map[1 := 1.2, 2 := 1.3, 3 := 1.3, 4 := 1.2, 5 := 0.9, 6 := 1.2, 7 := 1.3, 8 := 1.3]

  /** Why `read_sensors` raised. */
  datatype ReadError =
    | SensorFailure(channel: nat)  // `librtd.get` or `librtd.getRes` raised
    | MissingOffset(channel: nat)  // `temp - None`: no `ch_{n}` entry for the board

  /** A row `[timestamp, channel, temp, resi, corr_temp]` of the buffer. */
  datatype SensorRow = SensorRow(time: int, channel: nat, temp: real, resi: real, corr: real)

  /** The offset of channel `ch`; `None` where the lookup yields `None`. */
  function OffsetFor(source: OffsetSource, ch: nat): (r: Option<real>)
    requires 1 <= ch <= ChannelCount
    ensures source.FixedTable? ==> r == Some(FixedOffsets[ch])
    ensures source.PerSerial? ==> (r.Some? <==> OffsetKey(ch) in source.table)
    ensures source.PerSerial? && r.Some? ==> r.value == source.table[OffsetKey(ch)]
  {
    match source
    case FixedTable => Some(FixedOffsets[ch])
    case PerSerial(table) => if OffsetKey(ch) in table then Some(table[OffsetKey(ch)]) else None
  }

  /** The row for channel `ch` from read `r`, or the error it raises: the read
      comes first, then the offset. */
  function RowOf(source: OffsetSource, time: int, ch: nat, r: Read): (row: Result<SensorRow, ReadError>)
    requires 1 <= ch <= ChannelCount
    ensures row.Ok? <==> r.Some? && OffsetFor(source, ch).Some?
    ensures r.None? ==> row == Err(SensorFailure(ch))
    ensures r.Some? && OffsetFor(source, ch).None? ==> row == Err(MissingOffset(ch))
    ensures row.Ok? ==> row.value.time == time && row.value.channel == ch
                        && row.value.temp == r.value.temp && row.value.resi == r.value.resi
                        && row.value.corr == r.value.temp - OffsetFor(source, ch).value
  {
    match r
    case None => Err(SensorFailure(ch))
    case Some(reading) =>
      match OffsetFor(source, ch)
      case None => Err(MissingOffset(ch))
      case Some(offset) => Ok(SensorRow(time, ch, reading.temp, reading.resi, reading.temp - offset))
  }

  /** The rows of channels 1 to `n`, or the error of the first channel that
      raises. */
  function RowsUpTo(source: OffsetSource, time: int, tick: seq<Read>, n: nat): (r: Result<seq<SensorRow>, ReadError>)
    requires |tick| == ChannelCount && n <= ChannelCount
    ensures r.Ok? ==> |r.value| == n
    decreases n
  {
    if n == 0 then Ok([])
    else
      match RowsUpTo(source, time, tick, n - 1)
      case Err(e) => Err(e)
      case Ok(rows) =>
        match RowOf(source, time, n, tick[n - 1])
        case Err(e) => Err(e)
        case Ok(row) => Ok(rows + [row])
  }

  /** `read_sensors()`, all reads stamped `time`; `tick[i]` is the read of
      channel `i + 1`. */
  function SensorRows(source: OffsetSource, time: int, tick: seq<Read>): (r: Result<seq<SensorRow>, ReadError>)
    requires |tick| == ChannelCount
    ensures r.Ok? <==> forall i :: 0 <= i < ChannelCount ==> RowOf(source, time, i + 1, tick[i]).Ok?
    ensures r.Ok? ==> |r.value| == ChannelCount
  {
    RowsUpToOk(source, time, tick, ChannelCount);
    RowsUpTo(source, time, tick, ChannelCount)
  }

  // ---------------------------------------------------------------------------
  // What `read_sensors` returns.

  /** The first `n` channels succeed if and only if each of them does; then
      row `i` is channel `i + 1`'s, stamped with the shared timestamp. */
  lemma {:induction false} RowsUpToOk(source: OffsetSource, time: int, tick: seq<Read>, n: nat)
    requires |tick| == ChannelCount && n <= ChannelCount
    ensures RowsUpTo(source, time, tick, n).Ok?
            <==> forall i :: 0 <= i < n ==> RowOf(source, time, i + 1, tick[i]).Ok?
    ensures RowsUpTo(source, time, tick, n).Ok? ==>
              forall i :: 0 <= i < n ==> RowsUpTo(source, time, tick, n).value[i] == RowOf(source, time, i + 1, tick[i]).value
  {
    if n > 0 {
      RowsUpToOk(source, time, tick, n - 1);
      var prev := RowsUpTo(source, time, tick, n - 1);
      var last := RowOf(source, time, n, tick[n - 1]);
      if prev.Err? {
        assert RowsUpTo(source, time, tick, n) == Err(prev.error);
      } else if last.Err? {
        assert RowsUpTo(source, time, tick, n) == Err(last.error);
      } else {
        var rows := prev.value + [last.value];
        assert RowsUpTo(source, time, tick, n) == Ok(rows);
        forall i | 0 <= i < n
          ensures rows[i] == RowOf(source, time, i + 1, tick[i]).value
        {
          if i < n - 1 {
            assert rows[i] == prev.value[i];
          }
        }
      }
    }
  }

  /** When channels 1 to `n` do not all succeed, the error is that of the
      first one that fails. */
  lemma {:induction false} RowsUpToErr(source: OffsetSource, time: int, tick: seq<Read>, n: nat, j: nat)
    requires |tick| == ChannelCount && j < n <= ChannelCount
    requires RowOf(source, time, j + 1, tick[j]).Err?
    requires forall i :: 0 <= i < j ==> RowOf(source, time, i + 1, tick[i]).Ok?
    ensures RowsUpTo(source, time, tick, n) == Err(RowOf(source, time, j + 1, tick[j]).error)
  {
    if n - 1 > j {
      RowsUpToErr(source, time, tick, n - 1, j);
    } else {
      RowsUpToOk(source, time, tick, j);
    }
  }

  /** `read_sensors` returns eight rows, channels 1 to 8 in order, all with the
      same timestamp, each corrected temperature the raw one minus its offset. */
  lemma SensorRowsShape(source: OffsetSource, time: int, tick: seq<Read>)
    requires |tick| == ChannelCount && SensorRows(source, time, tick).Ok?
    ensures |SensorRows(source, time, tick).value| == ChannelCount
    ensures forall i :: 0 <= i < ChannelCount ==>
              var row := SensorRows(source, time, tick).value[i];
              row.channel == i + 1 && row.time == time
              && tick[i] == Some(Reading(row.resi, row.temp))
              && row.corr == row.temp - OffsetFor(source, i + 1).value
  {
    RowsUpToOk(source, time, tick, ChannelCount);
  }

  /** With the fixed table every channel has an offset, so `read_sensors`
      fails exactly when a read fails, and then names the first such channel. */
  lemma FixedTableOnlySensorsFail(time: int, tick: seq<Read>)
    requires |tick| == ChannelCount
    ensures SensorRows(FixedTable, time, tick).Ok? <==> forall i :: 0 <= i < ChannelCount ==> tick[i].Some?
    ensures forall j :: 0 <= j < ChannelCount && tick[j].None? && (forall i :: 0 <= i < j ==> tick[i].Some?) ==>
              SensorRows(FixedTable, time, tick) == Err(SensorFailure(j + 1))
  {
    RowsUpToOk(FixedTable, time, tick, ChannelCount);
    forall j | 0 <= j < ChannelCount && tick[j].None? && (forall i :: 0 <= i < j ==> tick[i].Some?)
      ensures SensorRows(FixedTable, time, tick) == Err(SensorFailure(j + 1))
    {
      RowsUpToErr(FixedTable, time, tick, ChannelCount, j);
    }
  }

  /** On a board missing from the offsets file the table is empty, so even
      when every read succeeds the first channel raises for its missing
      offset. */
  lemma UnknownSerialFails(offsetsAll: map<string, map<string, real>>, serial: string, time: int, tick: seq<Read>)
    requires serial !in offsetsAll && |tick| == ChannelCount && tick[0].Some?
    ensures SensorRows(PerSerial(OffsetTable(offsetsAll, serial)), time, tick) == Err(MissingOffset(1))
  {
    RowsUpToErr(PerSerial(OffsetTable(offsetsAll, serial)), time, tick, ChannelCount, 0);
  }

  // ---------------------------------------------------------------------------
  // The bounded buffer and the trigger.

  /** `df.tail(n)`: the last `n` rows, or all of them when there are fewer. */
  function Tail<T>(s: seq<T>, n: nat): (r: seq<T>)
    ensures |r| == if |s| <= n then |s| else n
    ensures r == s[|s| - |r|..]
  {
    if |s| <= n then s else s[|s| - n..]
  }

  /** Trimming before appending loses nothing: the buffer after any number of
      `log_data` calls is the tail of everything read. */
  lemma TailAppend<T>(a: seq<T>, b: seq<T>, n: nat)
    ensures Tail(Tail(a, n) + b, n) == Tail(a + b, n)
  {
    var t := Tail(a, n);
    if |t + b| > n {
      assert (t + b)[|t + b| - n..] == (a + b)[|a + b| - n..];
    }
  }

  /** `timedelta.seconds` of a gap of `d` microseconds: the seconds within the
      day, after the gap is normalised to whole days plus a non-negative rest. */
  function DaySeconds(d: int): (s: nat)
    ensures s < SecondsPerDay
  {
    (d / MicrosPerSecond) % SecondsPerDay
  }

  /** The trigger of `main`. */
  function ShouldEmit(current: int, lastLogged: int): (emit: bool)
    ensures emit ==> current < lastLogged || current - lastLogged >= TriggerSeconds * MicrosPerSecond
    ensures lastLogged <= current < lastLogged + SecondsPerDay * MicrosPerSecond ==>
              (emit <==> current - lastLogged >= TriggerSeconds * MicrosPerSecond)
  {
    DaySeconds(current - lastLogged) >= TriggerSeconds
  }

  /** For a gap shorter than a day, `.seconds` is the gap in whole seconds, so
      the trigger fires exactly when at least 300 s have passed. */
  lemma DaySecondsWithinDay(d: int)
    requires 0 <= d < SecondsPerDay * MicrosPerSecond
    ensures DaySeconds(d) == d / MicrosPerSecond
    ensures DaySeconds(d) >= TriggerSeconds <==> d >= TriggerSeconds * MicrosPerSecond
  {
  }

  /** `.seconds` ignores whole days: adding any number of days, forward or
      back, to a gap leaves it unchanged. */
  lemma DaySecondsWholeDays(d: int, k: int)
    ensures DaySeconds(d + k * SecondsPerDay * MicrosPerSecond) == DaySeconds(d)
  {
    var q, r := d / MicrosPerSecond, d % MicrosPerSecond;
    assert d + k * SecondsPerDay * MicrosPerSecond == (q + k * SecondsPerDay) * MicrosPerSecond + r;
    DivUnique(d + k * SecondsPerDay * MicrosPerSecond, MicrosPerSecond, q + k * SecondsPerDay, r);
    var a, b := q / SecondsPerDay, q % SecondsPerDay;
    assert q + k * SecondsPerDay == (a + k) * SecondsPerDay + b;
    DivUnique(q + k * SecondsPerDay, SecondsPerDay, a + k, b);
  }

  /** A clock that steps back by at most a day gives a negative gap, whose
      `.seconds` is a day minus the step rounded up to whole seconds; the
      trigger then fires unless the step back exceeds 86100 s. */
  lemma DaySecondsStepBack(current: int, back: int)
    requires 0 < back <= SecondsPerDay * MicrosPerSecond
    ensures DaySeconds(-back) == SecondsPerDay + (-back) / MicrosPerSecond
    ensures ShouldEmit(current, current + back) <==> back <= (SecondsPerDay - TriggerSeconds) * MicrosPerSecond
  {
  }

  /** `.seconds` drops whole days: a gap of one day and 60 s reads as 60, so
      it does not trigger. */
  lemma DaySecondsDropsDays()
    ensures DaySeconds(SecondsPerDay * MicrosPerSecond + 60 * MicrosPerSecond) == 60
    ensures !ShouldEmit(SecondsPerDay * MicrosPerSecond + 60 * MicrosPerSecond, 0)
  {
  }

  /** A clock that steps back by 1 µs gives a gap of -1 day + 86399.999999 s,
      whose `.seconds` is 86399, so it triggers at once. */
  lemma DaySecondsNegativeGap()
    ensures DaySeconds(-1) == SecondsPerDay - 1
    ensures ShouldEmit(0, 1)
  {
  }

  /** A hand-over to the aggregation: the loop's `current_time`, whether the
      header row goes first, and the buffer that is aggregated. */
  datatype Emission = Emission(time: int, header: bool, rows: seq<SensorRow>)

  /** Only the first hand-over carries the header, and only when the file was
      empty at startup. */
  predicate HeaderFirst(emissions: seq<Emission>, startedEmpty: bool)
  {
    forall i :: 0 <= i < |emissions| ==> (emissions[i].header <==> i == 0 && startedEmpty)
  }

  /** What iteration `k` of a run reads: `read_sensors` stamped with that
      iteration's read time. */
  function ReadAt(source: OffsetSource, readTimes: seq<int>, ticks: seq<seq<Read>>, k: nat): Result<seq<SensorRow>, ReadError>
    requires k < |ticks| && |readTimes| == |ticks|
    requires forall j :: 0 <= j < |ticks| ==> |ticks[j]| == ChannelCount
  {
    SensorRows(source, readTimes[k], ticks[k])
  }

  /** The first `n` iterations of a run all read successfully. */
  predicate ReadsOk(source: OffsetSource, readTimes: seq<int>, ticks: seq<seq<Read>>, n: nat)
    requires n <= |ticks| && |readTimes| == |ticks|
    requires forall k :: 0 <= k < |ticks| ==> |ticks[k]| == ChannelCount
  {
    forall k :: 0 <= k < n ==> ReadAt(source, readTimes, ticks, k).Ok?
  }

  /** A successful read extends a run of successful reads by one iteration. */
  lemma ReadsOkNext(source: OffsetSource, readTimes: seq<int>, ticks: seq<seq<Read>>, n: nat)
    requires n < |ticks| && |readTimes| == |ticks|
    requires forall k :: 0 <= k < |ticks| ==> |ticks[k]| == ChannelCount
    requires ReadsOk(source, readTimes, ticks, n) && SensorRows(source, readTimes[n], ticks[n]).Ok?
    ensures ReadsOk(source, readTimes, ticks, n + 1)
  { }

  // ---------------------------------------------------------------------------
  // The logger itself.

  class Logger {
    const source: OffsetSource
    /** `sensor_data`. */
    var buffer: seq<SensorRow>
    /** `last_logged_time`. */
    var lastLogged: int
    /** Whether the output file is still empty (`file.tell() == 0`). */
    var fileEmpty: bool
    /** Every hand-over to the aggregation so far. */
    var emissions: seq<Emission>
    /** Every row read since startup. */
    ghost var history: seq<SensorRow>
    /** Whether the output file was empty at startup. */
    ghost const startedEmpty: bool

    /** The buffer is the last 600 rows read, in arrival order, and a header
        row has gone out only with the first hand-over, and only to a file
        that was empty. */
    ghost predicate Valid()
      reads this
    {
      buffer == Tail(history, BufferRows)
      && fileEmpty == (startedEmpty && emissions == [])
      && HeaderFirst(emissions, startedEmpty)
    }

    /** `main`'s start: an empty buffer and `last_logged_time = now`. */
    constructor (now: int, source: OffsetSource, fileEmpty: bool)
      ensures Valid()
      ensures this.source == source && this.fileEmpty == fileEmpty
      ensures buffer == [] && history == [] && emissions == [] && lastLogged == now
    {
      assert Tail<SensorRow>([], BufferRows) == [];
      this.source := source;
      buffer := [];
      history := [];
      lastLogged := now;
      this.fileEmpty := fileEmpty;
      startedEmpty := fileEmpty;
      emissions := [];
    }

    /** `read_sensors`: the loop over channels 1 to 8; the first read or
        lookup that raises ends it. */
    method ReadSensors(time: int, tick: seq<Read>) returns (r: Result<seq<SensorRow>, ReadError>)
      requires |tick| == ChannelCount
      ensures r == SensorRows(source, time, tick)
    {
      var readings: seq<SensorRow> := [];
      var channel := 1;
      while channel <= ChannelCount
        invariant 1 <= channel <= ChannelCount + 1
        invariant RowsUpTo(source, time, tick, channel - 1) == Ok(readings)
      {
        var row := RowOf(source, time, channel, tick[channel - 1]);
        if row.Err? {
          RowsUpToOk(source, time, tick, channel - 1);
          RowsUpToErr(source, time, tick, ChannelCount, channel - 1);
          r := Err(row.error);
          return;
        }
        assert RowsUpTo(source, time, tick, channel) == Ok(readings + [row.value]);
        readings := readings + [row.value];
        channel := channel + 1;
      }
      r := Ok(readings);
    }

    /** One iteration of `main`: `current_time` is read, `log_data` reads the
        sensors (stamped `readTime`) and trims the buffer, and when the trigger
        fires the buffer is handed over and `last_logged_time` moves to
        `current_time`. A failed read leaves everything as it was. */
    method Step(current: int, readTime: int, tick: seq<Read>) returns (r: Result<bool, ReadError>)
      requires Valid() && |tick| == ChannelCount
      modifies this`buffer, this`history, this`lastLogged, this`fileEmpty, this`emissions
      ensures Valid()
      ensures SensorRows(source, readTime, tick).Err? ==>
                r == Err(SensorRows(source, readTime, tick).error)
                && buffer == old(buffer) && history == old(history) && lastLogged == old(lastLogged)
                && emissions == old(emissions)
      ensures SensorRows(source, readTime, tick).Ok? ==>
                history == old(history) + SensorRows(source, readTime, tick).value
                && buffer == Tail(old(buffer) + SensorRows(source, readTime, tick).value, BufferRows)
                && r == Ok(ShouldEmit(current, old(lastLogged)))
      ensures r == Ok(true) ==>
                lastLogged == current
                && emissions == old(emissions) + [Emission(current, old(fileEmpty), buffer)]
      ensures r == Ok(false) ==> lastLogged == old(lastLogged) && emissions == old(emissions)
    {
      var rows := ReadSensors(readTime, tick);
      if rows.Err? {
        return Err(rows.error);
      }
      TailAppend(history, rows.value, BufferRows);
      buffer := Tail(buffer + rows.value, BufferRows);
      history := history + rows.value;
      if DaySeconds(current - lastLogged) >= TriggerSeconds {
        lastLogged := current;
        emissions := emissions + [Emission(current, fileEmpty, buffer)];
        fileEmpty := false;
        r := Ok(true);
      } else {
        r := Ok(false);
      }
    }

    /** A bounded run of `main`: `currents[k]`, `readTimes[k]` and `ticks[k]`
        are the clock readings and sensor reads of iteration `k`. Data is
        collected on every iteration, and the run stops at the first read that
        raises. */
    method Run(currents: seq<int>, readTimes: seq<int>, ticks: seq<seq<Read>>)
      returns (steps: nat, error: Option<ReadError>)
      requires Valid() && |currents| == |ticks| && |readTimes| == |ticks|
      requires forall k :: 0 <= k < |ticks| ==> |ticks[k]| == ChannelCount
      modifies this`buffer, this`history, this`lastLogged, this`fileEmpty, this`emissions
      ensures Valid()
      ensures steps <= |ticks| && (error.None? <==> steps == |ticks|)
      ensures ReadsOk(source, readTimes, ticks, steps)
      ensures error.Some? ==> SensorRows(source, readTimes[steps], ticks[steps]) == Err(error.value)
      ensures |history| == |old(history)| + ChannelCount * steps
      ensures |buffer| <= BufferRows && buffer == Tail(history, BufferRows)
      ensures |emissions| <= |old(emissions)| + steps
    {
      steps := 0;
      error := None;
      while steps < |ticks|
        invariant steps <= |ticks| && Valid()
        invariant ReadsOk(source, readTimes, ticks, steps)
        invariant |history| == |old(history)| + ChannelCount * steps
        invariant |emissions| <= |old(emissions)| + steps
      {
        var r := Step(currents[steps], readTimes[steps], ticks[steps]);
        if r.Err? {
          error := Some(r.error);
          return;
        }
        ReadsOkNext(source, readTimes, ticks, steps);
        steps := steps + 1;
      }
    }
  }
}
