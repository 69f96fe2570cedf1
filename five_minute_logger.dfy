/** The other tower logger of the fixed array: no averaging. Every 5 minutes
    it reads all 32 channels once and appends one line per channel, stamped
    with the wall clock read after the sleep. Its calibration lookup has a
    two-element default, so the first unconfigured channel stops the program
    with an unpacking error after the lines before it were written. */
module FiveMinuteLogger {
  import opened Common
  import opened Clock
  import opened Accumulator
  import opened FixedArrayTopology

  /** The `ValueError` raised when `[nan, 0]` is unpacked into
      `height, sensor, offset` for an unconfigured channel. */
  datatype CalError = NotEnoughValues(hat: nat, ch: nat)

  /** A line of the data file: the header, or one reading of one channel, with
      its fields in the order they are written (sensor number before height). */
  datatype Line =
    | Header
    | Row(time: int, hat: nat, ch: nat, sensor: Float, height: Float, resi: Float, temp: Float, corr: Float)

  /** `height, sensor, offset = offsets_dict.get(key, [nan, 0])`. */
  function Calibration(offsets: Offsets, c: Channel): (r: Result<CalEntry, CalError>)
    requires IsChannel(c)
    ensures r.Ok? <==> Key(c) in offsets
    ensures r.Ok? ==> r.value == offsets[Key(c)]
    ensures r.Err? ==> r.error == NotEnoughValues(c.hat, c.ch)
  {
    if Key(c) in offsets then Ok(offsets[Key(c)]) else Err(NotEnoughValues(c.hat, c.ch))
  }

  /** The line written for channel `c` with calibration `e` and read `r`: a
      failed read gives NaN resistance and temperature, and the corrected
      temperature is the raw one plus the offset. */
  function RowOf(e: CalEntry, c: Channel, r: Read, time: int): (line: Line)
    ensures line.Row? && line.time == time && line.hat == c.hat && line.ch == c.ch
    ensures line.sensor == e.sensorNum && line.height == e.height
    ensures line.corr == Add(line.temp, Some(e.offset))
    ensures r.None? ==> line.resi == NaN && line.temp == NaN && line.corr == NaN
    ensures r.Some? ==> line.resi == Some(r.value.resi) && line.temp == Some(r.value.temp)
  {
    match r
    case None => Row(time, c.hat, c.ch, e.sensorNum, e.height, NaN, NaN, Add(NaN, Some(e.offset)))
    case Some(reading) =>
      Row(time, c.hat, c.ch, e.sensorNum, e.height, Some(reading.resi), Some(reading.temp),
          Add(Some(reading.temp), Some(e.offset)))
  }

  /** The first `n` channels of the writing order all have calibration entries. */
  predicate ConfiguredUpTo(offsets: Offsets, n: nat)
    requires n <= ChannelCount
  {
    forall i :: 0 <= i < n ==> Key(SensorChannels()[i]) in offsets
  }

  /** The position in the writing order of the first unconfigured channel, or
      32 when every channel is configured. */
  function Stop(offsets: Offsets): (n: nat)
    ensures n <= ChannelCount && ConfiguredUpTo(offsets, n)
    ensures n < ChannelCount ==> Key(SensorChannels()[n]) !in offsets
  {
    StopFrom(offsets, 0)
  }

  function StopFrom(offsets: Offsets, i: nat): (n: nat)
    requires i <= ChannelCount && ConfiguredUpTo(offsets, i)
    ensures i <= n <= ChannelCount && ConfiguredUpTo(offsets, n)
    ensures n < ChannelCount ==> Key(SensorChannels()[n]) !in offsets
    decreases ChannelCount - i
  {
    if i == ChannelCount then i
    else if Key(SensorChannels()[i]) in offsets then StopFrom(offsets, i + 1)
    else i
  }

  /** The lines for the first `n` channels of the writing order. */
  function Rows(offsets: Offsets, tick: seq<Read>, time: int, n: nat): (rows: seq<Line>)
    requires |tick| == ChannelCount && n <= ChannelCount && ConfiguredUpTo(offsets, n)
    ensures |rows| == n
    ensures forall i :: 0 <= i < n ==>
              rows[i] == RowOf(offsets[Key(SensorChannels()[i])], SensorChannels()[i], tick[i], time)
  {
    seq(n, i requires 0 <= i < n =>
      RowOf(offsets[Key(SensorChannels()[i])], SensorChannels()[i], tick[i], time))
  }

  /** What one cycle appends to the data file: the lines up to the first
      unconfigured channel. */
  function CycleRows(offsets: Offsets, tick: seq<Read>, time: int): (rows: seq<Line>)
    requires |tick| == ChannelCount
    ensures |rows| <= ChannelCount
    ensures forall i :: 0 <= i < |rows| ==>
              Key(SensorChannels()[i]) in offsets
              && rows[i] == RowOf(offsets[Key(SensorChannels()[i])], SensorChannels()[i], tick[i], time)
    ensures |rows| < ChannelCount ==> Key(SensorChannels()[|rows|]) !in offsets
  {
    Rows(offsets, tick, time, Stop(offsets))
  }

  /** The error a cycle ends with, if any. */
  function CycleError(offsets: Offsets): (err: Option<CalError>)
    ensures err.Some? <==> Stop(offsets) < ChannelCount
  {
    var n := Stop(offsets);
    if n < ChannelCount then
      Some(NotEnoughValues(SensorChannels()[n].hat, SensorChannels()[n].ch))
    else None
  }

  /** Every tick of a run reads all 32 channels. */
  predicate Ticks(ticks: seq<seq<Read>>)
  {
    forall k :: 0 <= k < |ticks| ==> |ticks[k]| == ChannelCount
  }

  /** What each cycle of a run would write, cycle `k` stamped `clocks[k]`. */
  function CycleBlocks(offsets: Offsets, ticks: seq<seq<Read>>, clocks: seq<int>): (blocks: seq<seq<Line>>)
    requires Ticks(ticks) && |clocks| == |ticks|
    ensures |blocks| == |ticks|
    ensures forall k :: 0 <= k < |ticks| ==> blocks[k] == CycleRows(offsets, ticks[k], clocks[k])
  {
    seq(|ticks|, k requires 0 <= k < |ticks| => CycleRows(offsets, ticks[k], clocks[k]))
  }

  // ---------------------------------------------------------------------------
  // What a cycle writes.

  /** The loop form of `Rows`. */
  lemma RowsNext(offsets: Offsets, tick: seq<Read>, time: int, n: nat)
    requires |tick| == ChannelCount && n < ChannelCount && ConfiguredUpTo(offsets, n + 1)
    ensures Rows(offsets, tick, time, n + 1)
            == Rows(offsets, tick, time, n)
               + [RowOf(offsets[Key(SensorChannels()[n])], SensorChannels()[n], tick[n], time)]
  {
  }

  /** `Stop` is the position of the first unconfigured channel. */
  lemma {:induction false} StopIsFirstMissing(offsets: Offsets, j: nat, n: nat)
    requires j <= n <= ChannelCount && ConfiguredUpTo(offsets, n)
    requires n < ChannelCount ==> Key(SensorChannels()[n]) !in offsets
    ensures StopFrom(offsets, j) == n
    decreases n - j
  {
    if j < n {
      StopIsFirstMissing(offsets, j + 1, n);
    }
  }

  /** A cycle completes, writing all 32 lines in `sensor_keys` order, if and
      only if every channel has a calibration entry. */
  lemma CycleComplete(offsets: Offsets, tick: seq<Read>, time: int)
    requires |tick| == ChannelCount
    ensures CycleError(offsets).None? <==> forall c :: IsChannel(c) ==> Key(c) in offsets
    ensures CycleError(offsets).None? ==>
              |CycleRows(offsets, tick, time)| == ChannelCount
              && forall c :: IsChannel(c) ==>
                   CycleRows(offsets, tick, time)[Index(c)] == RowOf(offsets[Key(c)], c, tick[Index(c)], time)
  {
    SensorChannelsIndex();
    if forall c :: IsChannel(c) ==> Key(c) in offsets {
      assert ConfiguredUpTo(offsets, ChannelCount);
      StopIsFirstMissing(offsets, 0, ChannelCount);
    }
  }

  /** A missing calibration entry stops the cycle at that channel: the error
      names the first unconfigured channel in hat-then-channel order, the
      lines of every channel before it are written and no other line is. */
  lemma CycleStops(offsets: Offsets, tick: seq<Read>, time: int)
    requires |tick| == ChannelCount && CycleError(offsets).Some?
    ensures var c := Channel(CycleError(offsets).value.hat, CycleError(offsets).value.ch);
            IsChannel(c) && Key(c) !in offsets
            && |CycleRows(offsets, tick, time)| == Index(c)
            && forall d :: IsChannel(d) && Before(d, c) ==> Key(d) in offsets
  {
    SensorChannelsIndex();
    SensorChannelsOrder();
    var n := Stop(offsets);
    var c := SensorChannels()[n];
    forall d | IsChannel(d) && Before(d, c) ensures Key(d) in offsets {
      assert Index(d) < Index(c);
    }
  }

  // ---------------------------------------------------------------------------
  // The logger itself.

  class Logger {
    /** `offsets_dict`, loaded once at startup. */
    const offsets: Offsets
    /** `time_rounded`: the boundary the loop last slept towards. */
    var timeRounded: int
    /** The lines this run has appended to the data file. */
    var lines: seq<Line>

    ghost predicate Valid()
      reads this
    {
      IsBoundary(timeRounded)
    }

    /** Startup: the header if the data file is new, and `time_rounded` the
        5-minute mark at or before `now`. */
    constructor (now: int, offsets: Offsets, dataFileExists: bool)
      ensures Valid()
      ensures this.offsets == offsets
      ensures timeRounded <= now < timeRounded + Window
      ensures lines == if dataFileExists then [] else [Header]
    {
      this.offsets := offsets;
      lines := if dataFileExists then [] else [Header];
      timeRounded := FloorToBoundary(now);
    }

    /** One iteration of the loop: advance `time_rounded` by 5 minutes, sleep
        until it from `clockBefore` (never a negative time), then read and
        write every channel, stamping each line with `clockAfter`, the clock
        read after the sleep. `tick[i]` is the read of the i-th channel. */
    method Cycle(clockBefore: int, clockAfter: int, tick: seq<Read>) returns (sleep: int, error: Option<CalError>)
      requires Valid() && |tick| == ChannelCount
      modifies this`timeRounded, this`lines
      ensures Valid()
      ensures timeRounded == old(timeRounded) + Window
      ensures sleep == Wait(timeRounded, clockBefore)
      ensures lines == old(lines) + CycleRows(offsets, tick, clockAfter)
      ensures error == CycleError(offsets)
    {
      BoundaryShift(timeRounded, 1);
      timeRounded := timeRounded + Window;
      sleep := Wait(timeRounded, clockBefore);
      var stamp := clockAfter;
      error := WriteCycle(stamp, tick);
    }

    /** A bounded run of the endless loop. Cycle `k` sleeps from
        `befores[k]` and stamps its lines `afters[k]`. As the calibration table
        never changes, either every cycle completes or the first one stops the
        program. */
    method Run(befores: seq<int>, afters: seq<int>, ticks: seq<seq<Read>>) returns (cycles: nat, error: Option<CalError>)
      requires Valid() && |befores| == |ticks| && |afters| == |ticks| && Ticks(ticks)
      modifies this`timeRounded, this`lines
      ensures Valid()
      ensures error == if ticks == [] then None else CycleError(offsets)
      ensures cycles == if error.None? then |ticks| else 1
      ensures timeRounded == BoundaryAfter(old(timeRounded), cycles)
      ensures lines == old(lines) + Flatten(CycleBlocks(offsets, ticks, afters)[..cycles])
    {
      ghost var blocks := CycleBlocks(offsets, ticks, afters);
      ghost var start := timeRounded;
      ghost var before := lines;
      ghost var written: seq<Line> := [];
      error := None;
      cycles := 0;
      while cycles < |ticks|
        invariant cycles <= |ticks| && Valid()
        invariant error.None? && (cycles > 0 ==> CycleError(offsets).None?)
        invariant timeRounded == BoundaryAfter(start, cycles)
        invariant lines == before + written
        invariant written == Flatten(blocks[..cycles])
      {
        FlattenPrefix(blocks, cycles);
        BoundaryAfterStep(start, cycles);
        var sleep;
        sleep, error := Cycle(befores[cycles], afters[cycles], ticks[cycles]);
        AppendAssoc(before, written, blocks[cycles]);
        written := written + blocks[cycles];
        cycles := cycles + 1;
        if error.Some? {
          return;
        }
      }
      TakeAll(blocks);
    }

    /** The nested hat and channel loops of a cycle, all lines stamped `stamp`;
        an unconfigured channel ends them with its unpacking error. */
    method WriteCycle(stamp: int, tick: seq<Read>) returns (error: Option<CalError>)
      requires |tick| == ChannelCount
      modifies this`lines
      ensures lines == old(lines) + CycleRows(offsets, tick, stamp)
      ensures error == CycleError(offsets)
    {
      SensorChannelsIndex();
      ghost var before := lines;
      ghost var written: seq<Line> := [];
      var hat := 0;
      while hat < Hats
        invariant 0 <= hat <= Hats
        invariant ConfiguredUpTo(offsets, hat * ChannelsPerHat)
        invariant lines == before + written
        invariant written == Rows(offsets, tick, stamp, hat * ChannelsPerHat)
      {
        var ch := 1;
        while ch <= ChannelsPerHat
          invariant 1 <= ch <= ChannelsPerHat + 1
          invariant ConfiguredUpTo(offsets, hat * ChannelsPerHat + ch - 1)
          invariant lines == before + written
          invariant written == Rows(offsets, tick, stamp, hat * ChannelsPerHat + ch - 1)
        {
          var c := Channel(hat, ch);
          var i := hat * ChannelsPerHat + ch - 1;
          assert SensorChannels()[i] == c && Index(c) == i;
          var cal := Calibration(offsets, c);
          if cal.Err? {
            StopIsFirstMissing(offsets, 0, i);
            error := Some(cal.error);
            return;
          }
          var line := RowOf(cal.value, c, tick[i], stamp);
          RowsNext(offsets, tick, stamp, i);
          AppendAssoc(before, written, [line]);
          lines := lines + [line];
          written := written + [line];
          ch := ch + 1;
        }
        hat := hat + 1;
      }
      StopIsFirstMissing(offsets, 0, ChannelCount);
      error := None;
    }
  }
}
