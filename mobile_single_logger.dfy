/** The single-hat mobile logger: eight channels on hat 0 sampled ten times per
    window into a fresh accumulator, then one averaged line per channel stamped
    with the window's 5-minute boundary. The corrected temperature subtracts a
    per-device offset looked up by the board's serial number. */
module MobileSingleLogger {
  import opened Common
  import opened Clock
  import opened Averaging
  import opened Accumulator
  import opened PiSerial

  /** `SAMPLES_PER_PERIOD`. */
  const SamplesPerPeriod: nat := 10

  /** The number of channels in `CHANNELS = range(1, 9)`. */
  const ChannelCount: nat := 8

  /** `CHANNELS`: 1 to 8, in order. */
  function Channels(): (chs: seq<nat>)
    ensures |chs| == ChannelCount
    ensures forall i :: 0 <= i < ChannelCount ==> chs[i] == i + 1
  {
    seq(ChannelCount, i requires 0 <= i < ChannelCount => i + 1)
  }

  lemma ChannelsDistinct()
    ensures Distinct(Channels())
    ensures forall ch :: ch in Channels() <==> 1 <= ch <= ChannelCount
  {
    forall ch: nat | 1 <= ch <= ChannelCount ensures ch in Channels() {
      assert Channels()[ch - 1] == ch;
    }
  }

  /** `offset_dict.get(f"ch_{ch}", 0)`. */
  function OffsetOf(table: map<string, real>, ch: nat): (offset: real)
    requires 1 <= ch <= ChannelCount
    ensures OffsetKey(ch) in table ==> offset == table[OffsetKey(ch)]
    ensures OffsetKey(ch) !in table ==> offset == 0.0
  {
    if OffsetKey(ch) in table then table[OffsetKey(ch)] else 0.0
  }

  /** At startup: the device's serial from the lines of `/proc/cpuinfo`, then
      its offset table, empty for a device missing from the offsets file. A
      `Serial` line without a colon stops the program. */
  function DeviceOffsets(cpuinfo: seq<string>, offsetsAll: map<string, map<string, real>>)
    : (r: Result<map<string, real>, SerialError>)
    ensures GetPiSerial(cpuinfo).Err? <==> r.Err?
    ensures r.Err? ==> r.error == GetPiSerial(cpuinfo).error
    ensures r.Ok? ==> r.value == OffsetTable(offsetsAll, GetPiSerial(cpuinfo).value)
  {
    match GetPiSerial(cpuinfo)
    case Err(e) => Err(e)
    case Ok(serial) => Ok(OffsetTable(offsetsAll, serial))
  }

  /** The sample `(temp, resi, corr_temp)` of channel `ch`: a failed read
      stores NaN, and the corrected temperature is the raw one minus the
      channel's offset. */
  function SampleOf(table: map<string, real>, ch: nat, r: Read): (s: Sample)
    requires 1 <= ch <= ChannelCount
    ensures s.corr == Add(s.temp, Some(-OffsetOf(table, ch)))
    ensures r.None? ==> s.resi == NaN && s.temp == NaN && s.corr == NaN
    ensures r.Some? ==> s.resi == Some(r.value.resi) && s.temp == Some(r.value.temp)
  {
    var offset := Some(OffsetOf(table, ch));
    match r
    case None => Sample(NaN, NaN, Sub(NaN, offset))
    case Some(reading) => Sample(Some(reading.resi), Some(reading.temp), Sub(Some(reading.temp), offset))
  }

  /** The samples of one tick, channel 1 first; `tick[i]` is the read of
      channel `i + 1`. */
  function TickSamples(table: map<string, real>, tick: seq<Read>): (s: seq<Sample>)
    requires |tick| == ChannelCount
    ensures |s| == ChannelCount
    ensures forall i :: 0 <= i < ChannelCount ==> s[i] == SampleOf(table, i + 1, tick[i])
  {
    seq(ChannelCount, i requires 0 <= i < ChannelCount => SampleOf(table, i + 1, tick[i]))
  }

  predicate IsWindow(window: seq<seq<Read>>)
  {
    forall t :: 0 <= t < |window| ==> |window[t]| == ChannelCount
  }

  function WindowSamples(table: map<string, real>, window: seq<seq<Read>>): (ticks: seq<seq<Sample>>)
    requires IsWindow(window)
    ensures |ticks| == |window| && Shaped(ticks, Channels())
    ensures forall t :: 0 <= t < |window| ==> ticks[t] == TickSamples(table, window[t])
  {
    seq(|window|, t requires 0 <= t < |window| => TickSamples(table, window[t]))
  }

  /** The samples of channel `ch` over a window, one per tick. */
  function ChannelSamples(table: map<string, real>, window: seq<seq<Read>>, ch: nat): seq<Sample>
    requires IsWindow(window) && 1 <= ch <= ChannelCount
  {
    seq(|window|, t requires 0 <= t < |window| => SampleOf(table, ch, window[t][ch - 1]))
  }

  /** What the accumulator should hold at the end of a window: for each
      channel 1 to 8, that channel's samples in tick order. */
  function Collected(table: map<string, real>, window: seq<seq<Read>>): Buffers<nat>
    requires IsWindow(window)
  {
    map ch: nat | 1 <= ch <= ChannelCount :: ChannelSamples(table, window, ch)
  }

  /** A line of the data file: the header, or `[aligned, ch, temp, resi, corr]`
      with the window's means. */
  datatype Line = Header | Row(time: int, ch: nat, avg: Averages)

  /** The lines one window writes, channel 1 first. */
  function WindowLines(acc: Buffers<nat>, time: int): (lines: seq<Line>)
    requires Covers(acc, Channels())
    ensures |lines| == ChannelCount
    ensures forall i :: 0 <= i < ChannelCount ==> lines[i] == Row(time, i + 1, Aggregate(acc[Channels()[i]]))
  {
    seq(ChannelCount, i requires 0 <= i < ChannelCount => Row(time, i + 1, Aggregate(acc[Channels()[i]])))
  }

  /** Everything one window appends to the data file. */
  function WindowRecord(table: map<string, real>, window: seq<seq<Read>>, time: int): (lines: seq<Line>)
    requires IsWindow(window)
    ensures |lines| == ChannelCount
    ensures forall i :: 0 <= i < ChannelCount ==> lines[i].Row? && lines[i].time == time && lines[i].ch == i + 1
  {
    WindowLines(Collected(table, window), time)
  }

  // ---------------------------------------------------------------------------
  // What a window writes.

  /** Appending each tick's samples to a fresh accumulator, one per channel,
      leaves exactly `Collected`: channels 1 to 8 as keys, and in each
      buffer that channel's samples, one per tick, in tick order. */
  lemma CollectedBuffer(table: map<string, real>, window: seq<seq<Read>>)
    requires IsWindow(window)
    ensures Collect(Fresh(Channels()), Channels(), WindowSamples(table, window)) == Collected(table, window)
  {
    var chs := Channels();
    var ticks := WindowSamples(table, window);
    var want := Collected(table, window);
    ChannelsDistinct();
    forall i | 0 <= i < ChannelCount
      ensures want[chs[i]] == Column(ticks, i)
    {
      assert want[chs[i]] == ChannelSamples(table, window, i + 1);
    }
    FreshCollectIs(chs, ticks, want);
  }

  /** Each window writes eight lines, channels 1 to 8 in order, all stamped
      with the window's boundary; the corrected mean is the raw mean minus the
      channel's offset. */
  lemma WindowLineShape(table: map<string, real>, window: seq<seq<Read>>, time: int, ch: nat)
    requires IsWindow(window) && 1 <= ch <= ChannelCount
    ensures |WindowRecord(table, window, time)| == ChannelCount
    ensures var line := WindowRecord(table, window, time)[ch - 1];
            line.Row? && line.time == time && line.ch == ch
            && line.avg.corr == Add(line.avg.temp, Some(-OffsetOf(table, ch)))
  {
    AggregateCorrected(Collected(table, window)[ch], -OffsetOf(table, ch));
  }

  /** On a board missing from the offsets file every offset is 0, so the
      corrected mean equals the raw mean on every line. */
  lemma UnknownDeviceUncorrected(offsetsAll: map<string, map<string, real>>, serial: string,
                                 window: seq<seq<Read>>, time: int, ch: nat)
    requires serial !in offsetsAll && IsWindow(window) && 1 <= ch <= ChannelCount
    ensures var line := WindowRecord(OffsetTable(offsetsAll, serial), window, time)[ch - 1];
            line.avg.corr == line.avg.temp
  {
    var table := OffsetTable(offsetsAll, serial);
    WindowLineShape(table, window, time, ch);
    ZeroOffsetLine(WindowRecord(table, window, time)[ch - 1], OffsetOf(table, ch));
  }

  lemma ZeroOffsetLine(line: Line, offset: real)
    requires line.Row? && offset == 0.0 && line.avg.corr == Add(line.avg.temp, Some(-offset))
    ensures line.avg.corr == line.avg.temp
  {
    AddZero(line.avg.temp);
  }

  /** One failed read of a channel anywhere in the window makes all three of its
      means NaN, and the line is still written. */
  lemma FailedReadPoisonsLine(table: map<string, real>, window: seq<seq<Read>>, time: int, ch: nat, t: nat)
    requires IsWindow(window) && 1 <= ch <= ChannelCount
    requires t < |window| && window[t][ch - 1].None?
    ensures WindowRecord(table, window, time)[ch - 1].avg == Averages(NaN, NaN, NaN)
  {
    assert Collected(table, window)[ch][t].resi == NaN;
  }

  /** A channel read with the same values on every tick logs those values,
      and its corrected mean is that temperature minus its offset. */
  lemma SteadyReadsLine(table: map<string, real>, window: seq<seq<Read>>, time: int, ch: nat, r: Reading)
    requires IsWindow(window) && 1 <= ch <= ChannelCount && |window| > 0
    requires forall t :: 0 <= t < |window| ==> window[t][ch - 1] == Some(r)
    ensures WindowRecord(table, window, time)[ch - 1].avg
            == Averages(Some(r.resi), Some(r.temp), Some(r.temp - OffsetOf(table, ch)))
  {
    var buffer := Collected(table, window)[ch];
    assert buffer == ChannelSamples(table, window, ch);
    AggregateConstant(buffer, SampleOf(table, ch, Some(r)));
  }

  /** Every window of a run has `SAMPLES_PER_PERIOD` ticks of all channels. */
  predicate Windows(windows: seq<seq<seq<Read>>>)
  {
    forall k :: 0 <= k < |windows| ==> |windows[k]| == SamplesPerPeriod && IsWindow(windows[k])
  }

  /** The record of each window of a run, window `k` stamped with the k-th
      boundary after `start`. */
  function RunBlocks(table: map<string, real>, windows: seq<seq<seq<Read>>>, start: int): (blocks: seq<seq<Line>>)
    requires Windows(windows)
    ensures |blocks| == |windows|
    ensures forall k :: 0 <= k < |windows| ==>
              blocks[k] == WindowRecord(table, windows[k], BoundaryAfter(start, k))
  {
    seq(|windows|, k requires 0 <= k < |windows| => WindowRecord(table, windows[k], BoundaryAfter(start, k)))
  }

  // ---------------------------------------------------------------------------
  // The logger itself.

  class Logger {
    /** `offset_dict`: this board's offsets. */
    const offsets: map<string, real>
    /** `aligned`: the boundary that stamps the current window. */
    var aligned: int
    /** `data_accum`. */
    var accum: Buffers<nat>
    /** The lines this run has appended to the data file. */
    var dataLines: seq<Line>

    ghost predicate Valid()
      reads this
    {
      IsBoundary(aligned)
    }

    /** Startup: the header if the data file is missing, and the first
        boundary, the next 5-minute mark strictly after `now`. */
    constructor (now: int, offsets: map<string, real>, dataFileExists: bool)
      ensures Valid()
      ensures this.offsets == offsets
      ensures now < aligned <= now + Window
      ensures dataLines == if dataFileExists then [] else [Header]
    {
      this.offsets := offsets;
      dataLines := if dataFileExists then [] else [Header];
      accum := Fresh(Channels());
      aligned := NextBoundary(now);
    }

    /** One tick: `tick[i]`, the read of channel `i + 1`, is appended to that
        channel's buffer. */
    method SampleTick(tick: seq<Read>)
      requires Covers(accum, Channels()) && |tick| == ChannelCount
      modifies this`accum
      ensures accum == Push(old(accum), Channels(), TickSamples(offsets, tick))
    {
      var chs := Channels();
      var samples := TickSamples(offsets, tick);
      ghost var acc0 := accum;
      var i := 0;
      while i < |chs|
        invariant 0 <= i <= |chs|
        invariant accum.Keys == acc0.Keys
        invariant accum == Push(acc0, chs[..i], samples[..i])
      {
        PushPrefix(acc0, chs, samples, i);
        var ch := chs[i];
        accum := accum[ch := accum[ch] + [samples[i]]];
        i := i + 1;
      }
      assert chs[..|chs|] == chs && samples[..|chs|] == samples;
    }

    /** The sampling loop of a window, from a fresh accumulator. */
    method SampleWindow(window: seq<seq<Read>>)
      requires IsWindow(window)
      modifies this`accum
      ensures Covers(accum, Channels())
      ensures accum == Collected(offsets, window)
    {
      var chs := Channels();
      var ticks := WindowSamples(offsets, window);
      accum := Fresh(chs);
      for t := 0 to |window|
        invariant Covers(Fresh(chs), chs) && Covers(accum, chs)
        invariant accum == Collect(Fresh(chs), chs, ticks[..t])
      {
        CollectPrefix(Fresh(chs), chs, ticks, t);
        SampleTick(window[t]);
      }
      assert ticks[..|window|] == ticks;
      CollectedBuffer(offsets, window);
    }

    /** The writing loop: one line per channel with the means of its buffer,
        stamped with `aligned`. */
    method WriteAverages()
      requires Covers(accum, Channels())
      modifies this`dataLines
      ensures dataLines == old(dataLines) + WindowLines(accum, aligned)
    {
      var chs := Channels();
      ghost var lines := WindowLines(accum, aligned);
      ghost var before := dataLines;
      ghost var written: seq<Line> := [];
      for i := 0 to ChannelCount
        invariant dataLines == before + written
        invariant written == lines[..i]
      {
        var ch := chs[i];
        var line := Row(aligned, ch, Aggregate(accum[ch]));
        AppendAssoc(before, written, [line]);
        TakeNext(lines, i);
        dataLines := dataLines + [line];
        written := written + [line];
      }
      TakeAll(lines);
    }

    /** One iteration of the main loop: a fresh accumulator, the window's
        ticks, the averages, the next boundary exactly 5 minutes on, and the
        sleep until it, never negative. */
    method RunWindow(window: seq<seq<Read>>, now: int) returns (sleep: int)
      requires Valid() && |window| == SamplesPerPeriod && IsWindow(window)
      modifies this`accum, this`dataLines, this`aligned
      ensures Valid()
      ensures dataLines == old(dataLines) + WindowRecord(offsets, window, old(aligned))
      ensures aligned == old(aligned) + Window
      ensures sleep == Wait(aligned, now)
    {
      SampleWindow(window);
      WriteAverages();
      BoundaryShift(aligned, 1);
      aligned := aligned + Window;
      sleep := Wait(aligned, now);
    }

    /** A bounded run of the endless loop: window `k` is stamped with the k-th
        boundary after the first, whatever the clock said in between. */
    method Run(windows: seq<seq<seq<Read>>>, nows: seq<int>)
      requires Valid() && |nows| == |windows| && Windows(windows)
      modifies this`accum, this`dataLines, this`aligned
      ensures Valid()
      ensures aligned == BoundaryAfter(old(aligned), |windows|)
      ensures dataLines == old(dataLines) + Flatten(RunBlocks(offsets, windows, old(aligned)))
    {
      ghost var blocks := RunBlocks(offsets, windows, aligned);
      ghost var start := aligned;
      ghost var before := dataLines;
      ghost var written: seq<Line> := [];
      for k := 0 to |windows|
        invariant Valid()
        invariant aligned == BoundaryAfter(start, k)
        invariant dataLines == before + written
        invariant written == Flatten(blocks[..k])
      {
        FlattenPrefix(blocks, k);
        BoundaryAfterStep(start, k);
        var sleep := RunWindow(windows[k], nows[k]);
        AppendAssoc(before, written, blocks[k]);
        written := written + blocks[k];
      }
      TakeAll(blocks);
    }
  }
}
