/** The tower logger of the fixed array: every 30 s it reads all 32 channels
    into a per-channel accumulator, and on each 5-minute boundary it writes one
    averaged line per channel, stamped with that boundary, then starts a new
    window. */
module FixedArrayLogger {
  import opened Common
  import opened Clock
  import opened Averaging
  import opened Accumulator
  import opened FixedArrayTopology

  /** `SAMPLES_PER_PERIOD`: ticks per window (10 ticks 30 s apart). */
  const SamplesPerPeriod: nat := 10

  /** A line of the data file: the column header, or one channel's averages. */
  datatype DataLine =
    | Header
    | Row(time: int, hat: nat, ch: nat, height: Float, sensorNum: Float, avg: Averages)

  /** The triple `(resi, temp, corr_temp)` stored for channel `c` from read `r`:
      a failed read stores NaN, and the corrected temperature is the raw one
      plus the channel's offset. */
  function SampleOf(offsets: Offsets, c: Channel, r: Read): (s: Sample)
    requires IsChannel(c)
    ensures s.corr == Add(s.temp, Some(Lookup(offsets, Key(c)).offset))
    ensures r.None? ==> s.resi == NaN && s.temp == NaN && s.corr == NaN
    ensures r.Some? ==> s.resi == Some(r.value.resi) && s.temp == Some(r.value.temp)
  {
    var offset := Lookup(offsets, Key(c)).offset;
    match r
    case None => Sample(NaN, NaN, Add(NaN, Some(offset)))
    case Some(reading) => Sample(Some(reading.resi), Some(reading.temp), Add(Some(reading.temp), Some(offset)))
  }

  /** The samples of one tick, in `sensor_keys` order; `tick[i]` is the read of
      the i-th channel. */
  function TickSamples(offsets: Offsets, tick: seq<Read>): (s: seq<Sample>)
    requires |tick| == ChannelCount
    ensures |s| == ChannelCount
    ensures forall i :: 0 <= i < ChannelCount ==> s[i] == SampleOf(offsets, SensorChannels()[i], tick[i])
  {
    seq(ChannelCount, i requires 0 <= i < ChannelCount => SampleOf(offsets, SensorChannels()[i], tick[i]))
  }

  predicate IsWindow(window: seq<seq<Read>>)
  {
    forall t :: 0 <= t < |window| ==> |window[t]| == ChannelCount
  }

  function WindowSamples(offsets: Offsets, window: seq<seq<Read>>): (ticks: seq<seq<Sample>>)
    requires IsWindow(window)
    ensures |ticks| == |window| && Shaped(ticks, SensorChannels())
    ensures forall t :: 0 <= t < |window| ==> ticks[t] == TickSamples(offsets, window[t])
  {
    seq(|window|, t requires 0 <= t < |window| => TickSamples(offsets, window[t]))
  }

  /** The samples of channel `c` over a window, one per tick. */
  function ChannelSamples(offsets: Offsets, window: seq<seq<Read>>, c: Channel): seq<Sample>
    requires IsWindow(window) && IsChannel(c)
  {
    seq(|window|, t requires 0 <= t < |window| => SampleOf(offsets, c, window[t][Index(c)]))
  }

  /** What the accumulator should hold at the end of a window: for each of the
      32 channels, that channel's samples in tick order. */
  function Collected(offsets: Offsets, window: seq<seq<Read>>): Buffers<Channel>
    requires IsWindow(window)
  {
    map c | c in SensorChannels() :: ChannelSamples(offsets, window, c)
  }

  /** The line written for channel `c`: its calibration data and the means of
      its buffer. */
  function LineFor(acc: Buffers<Channel>, offsets: Offsets, c: Channel, time: int): DataLine
    requires IsChannel(c) && c in acc
  {
    var e := Lookup(offsets, Key(c));
    Row(time, c.hat, c.ch, e.height, e.sensorNum, Aggregate(acc[c]))
  }

  /** The lines one window writes, in `sensor_keys` order. */
  function WindowLines(acc: Buffers<Channel>, offsets: Offsets, time: int): (lines: seq<DataLine>)
    requires Covers(acc, SensorChannels())
    ensures |lines| == ChannelCount
    ensures forall i :: 0 <= i < ChannelCount ==>
              lines[i] == LineFor(acc, offsets, SensorChannels()[i], time)
  {
    seq(ChannelCount, i requires 0 <= i < ChannelCount => LineFor(acc, offsets, SensorChannels()[i], time))
  }

  /** Everything one window appends to the data file. */
  function WindowRecord(offsets: Offsets, window: seq<seq<Read>>, time: int): (lines: seq<DataLine>)
    requires IsWindow(window)
    ensures |lines| == ChannelCount
    ensures forall c :: IsChannel(c) ==>
              lines[Index(c)].Row? && lines[Index(c)].time == time
              && lines[Index(c)].hat == c.hat && lines[Index(c)].ch == c.ch
  {
    WindowLinesShape(Collected(offsets, window), offsets, time);
    WindowLines(Collected(offsets, window), offsets, time)
  }

  // ---------------------------------------------------------------------------
  // What a window writes.

  /** A window writes exactly one line per channel, in hat-then-channel order,
      every line stamped with the same boundary, whatever was read. */
  lemma WindowLinesShape(acc: Buffers<Channel>, offsets: Offsets, time: int)
    requires Covers(acc, SensorChannels())
    ensures forall i :: 0 <= i < ChannelCount ==> WindowLines(acc, offsets, time)[i].Row?
    ensures forall i :: 0 <= i < ChannelCount ==> WindowLines(acc, offsets, time)[i].time == time
    ensures forall c :: IsChannel(c) ==>
              WindowLines(acc, offsets, time)[Index(c)].hat == c.hat
              && WindowLines(acc, offsets, time)[Index(c)].ch == c.ch
    ensures forall i, j :: 0 <= i < j < ChannelCount ==>
              Before(Channel(WindowLines(acc, offsets, time)[i].hat, WindowLines(acc, offsets, time)[i].ch),
                     Channel(WindowLines(acc, offsets, time)[j].hat, WindowLines(acc, offsets, time)[j].ch))
  {
    SensorChannelsIndex();
    SensorChannelsOrder();
    var lines := WindowLines(acc, offsets, time);
    forall i, j | 0 <= i < j < ChannelCount
      ensures Before(Channel(lines[i].hat, lines[i].ch), Channel(lines[j].hat, lines[j].ch))
    {
      assert Channel(lines[i].hat, lines[i].ch) == SensorChannels()[i];
      assert Channel(lines[j].hat, lines[j].ch) == SensorChannels()[j];
    }
  }

  /** Appending each tick's samples to empty buffers, one per channel in
      `sensor_keys` order, leaves exactly `Collected`: the 32 channels as keys,
      and in each buffer that channel's samples, one per tick, in tick order. */
  lemma CollectedBuffer(offsets: Offsets, window: seq<seq<Read>>)
    requires IsWindow(window)
    ensures Collect(Fresh(SensorChannels()), SensorChannels(), WindowSamples(offsets, window))
            == Collected(offsets, window)
  {
    var keys := SensorChannels();
    var ticks := WindowSamples(offsets, window);
    var want := Collected(offsets, window);
    SensorChannelsIndex();
    SensorChannelsOrder();
    forall i | 0 <= i < ChannelCount
      ensures want[keys[i]] == Column(ticks, i)
    {
      assert want[keys[i]] == ChannelSamples(offsets, window, keys[i]);
    }
    FreshCollectIs(keys, ticks, want);
  }

  /** The line a window's record holds for channel `c` is built from that
      channel's samples. */
  lemma RecordLine(offsets: Offsets, window: seq<seq<Read>>, time: int, c: Channel)
    requires IsWindow(window) && IsChannel(c)
    ensures c in Collected(offsets, window)
    ensures Collected(offsets, window)[c] == ChannelSamples(offsets, window, c)
    ensures WindowRecord(offsets, window, time)[Index(c)] == LineFor(Collected(offsets, window), offsets, c, time)
  {
    SensorChannelsIndex();
  }

  /** The corrected mean is the raw mean plus the channel's offset, and an
      unconfigured channel logs NaN height and sensor number and its raw
      temperature as the corrected one. */
  lemma WindowLineCalibration(offsets: Offsets, window: seq<seq<Read>>, time: int, c: Channel)
    requires IsWindow(window) && IsChannel(c)
    ensures var line := WindowRecord(offsets, window, time)[Index(c)];
            line.avg.corr == Add(line.avg.temp, Some(Lookup(offsets, Key(c)).offset))
    ensures Key(c) !in offsets ==>
              var line := WindowRecord(offsets, window, time)[Index(c)];
              line.height == NaN && line.sensorNum == NaN && line.avg.corr == line.avg.temp
  {
    SensorChannelsIndex();
    var buffer := Collected(offsets, window)[c];
    AggregateCorrected(buffer, Lookup(offsets, Key(c)).offset);
    var line := WindowRecord(offsets, window, time)[Index(c)];
    if Key(c) !in offsets && line.avg.temp.Some? {
      assert line.avg.temp.value + 0.0 == line.avg.temp.value;
    }
  }

  /** One failed read of a channel anywhere in the window makes all three of its
      means NaN, and the line is still written. */
  lemma FailedReadPoisonsLine(offsets: Offsets, window: seq<seq<Read>>, time: int, c: Channel, t: nat)
    requires IsWindow(window) && IsChannel(c)
    requires t < |window| && window[t][Index(c)].None?
    ensures WindowRecord(offsets, window, time)[Index(c)].avg == Averages(NaN, NaN, NaN)
  {
    RecordLine(offsets, window, time, c);
    assert ChannelSamples(offsets, window, c)[t].resi == NaN;
  }

  /** A window with no ticks yields NaN means for every channel. */
  lemma EmptyWindowLine(offsets: Offsets, time: int, c: Channel)
    requires IsChannel(c)
    ensures WindowRecord(offsets, [], time)[Index(c)].avg == Averages(NaN, NaN, NaN)
  {
    SensorChannelsIndex();
  }

  /** A channel read with the same values on every tick averages to those
      values, and its corrected mean is that temperature plus its offset. */
  lemma SteadySamples(offsets: Offsets, window: seq<seq<Read>>, c: Channel, r: Reading)
    requires IsWindow(window) && IsChannel(c) && |window| > 0
    requires forall t :: 0 <= t < |window| ==> window[t][Index(c)] == Some(r)
    ensures Aggregate(ChannelSamples(offsets, window, c))
            == Averages(Some(r.resi), Some(r.temp), Some(r.temp + Lookup(offsets, Key(c)).offset))
  {
    AggregateConstant(ChannelSamples(offsets, window, c), SampleOf(offsets, c, Some(r)));
  }

  /** Such a channel's line carries those values as its means. */
  lemma SteadyReadsLine(offsets: Offsets, window: seq<seq<Read>>, time: int, c: Channel, r: Reading)
    requires IsWindow(window) && IsChannel(c) && |window| > 0
    requires forall t :: 0 <= t < |window| ==> window[t][Index(c)] == Some(r)
    ensures WindowRecord(offsets, window, time)[Index(c)].avg
            == Averages(Some(r.resi), Some(r.temp), Some(r.temp + Lookup(offsets, Key(c)).offset))
  {
    SteadySamples(offsets, window, c, r);
    RecordLine(offsets, window, time, c);
  }

  /** Every window of a run has `SAMPLES_PER_PERIOD` ticks of all channels. */
  predicate Windows(windows: seq<seq<seq<Read>>>)
  {
    forall k :: 0 <= k < |windows| ==> |windows[k]| == SamplesPerPeriod && IsWindow(windows[k])
  }

  /** The record of each window of a run, window `k` stamped with the k-th
      boundary after `start`. */
  function RunBlocks(offsets: Offsets, windows: seq<seq<seq<Read>>>, start: int): (blocks: seq<seq<DataLine>>)
    requires Windows(windows)
    ensures |blocks| == |windows|
    ensures forall k :: 0 <= k < |windows| ==>
              blocks[k] == WindowRecord(offsets, windows[k], BoundaryAfter(start, k))
  {
    seq(|windows|, k requires 0 <= k < |windows| => WindowRecord(offsets, windows[k], BoundaryAfter(start, k)))
  }

  /** In a run, the `k`-th block of 32 lines is exactly window `k`'s record,
      stamped with the k-th boundary after the first. */
  lemma RunRecordWindow(offsets: Offsets, windows: seq<seq<seq<Read>>>, start: int, k: nat)
    requires Windows(windows) && k < |windows|
    ensures |Flatten(RunBlocks(offsets, windows, start))| == ChannelCount * |windows|
    ensures Flatten(RunBlocks(offsets, windows, start))[ChannelCount * k..ChannelCount * (k + 1)]
            == WindowRecord(offsets, windows[k], BoundaryAfter(start, k))
  {
    var blocks := RunBlocks(offsets, windows, start);
    forall i | 0 <= i < |blocks| ensures |blocks[i]| == ChannelCount {
      assert |WindowRecord(offsets, windows[i], BoundaryAfter(start, i))| == ChannelCount;
    }
    FlattenLength(blocks, ChannelCount);
    FlattenBlock(blocks, ChannelCount, k);
  }

  // ---------------------------------------------------------------------------
  // The logger itself.

  class TowerLogger {
    /** `offsets_dict`, loaded once at startup. */
    const offsets: Offsets
    /** `aligned`: the boundary that stamps the current window. */
    var aligned: int
    /** `data_accum`. */
    var accum: Buffers<Channel>
    /** The lines this run has appended to the data file. */
    var dataLines: seq<DataLine>

    /** The buffers are keyed by exactly the 32 channels, and the stamp of
        the current window is on a 5-minute mark. */
    ghost predicate Valid()
      reads this
    {
      accum.Keys == Fresh(SensorChannels()).Keys && IsBoundary(aligned)
    }

    /** Between windows every buffer is empty. */
    ghost predicate Idle()
      reads this
    {
      accum == Fresh(SensorChannels())
    }

    /** Startup: the header if the data file is new, the empty accumulator, and
        the first boundary, the next 5-minute mark strictly after `now`. */
    constructor (now: int, offsets: Offsets, dataFileExists: bool)
      ensures Valid() && Idle()
      ensures this.offsets == offsets
      ensures aligned == NextBoundary(now)
      ensures dataLines == if dataFileExists then [] else [Header]
    {
      this.offsets := offsets;
      dataLines := if dataFileExists then [] else [Header];
      accum := Fresh(SensorChannels());
      aligned := NextBoundary(now);
    }

    /** One tick: one sample appended to every channel's buffer, `tick[i]`
        being the read of the i-th channel of `sensor_keys`. */
    method SampleTick(tick: seq<Read>)
      requires Valid() && |tick| == ChannelCount
      modifies this`accum
      ensures Valid()
      ensures accum == Push(old(accum), SensorChannels(), TickSamples(offsets, tick))
    {
      var samples := TickSamples(offsets, tick);
      AppendSamples(samples);
    }

    /** The inner loop of a tick: `samples[i]` goes to the end of the buffer of
        the i-th channel of `sensor_keys`. */
    method AppendSamples(samples: seq<Sample>)
      requires Valid() && |samples| == ChannelCount
      modifies this`accum
      ensures Valid()
      ensures accum == Push(old(accum), SensorChannels(), samples)
    {
      var keys := SensorChannels();
      ghost var acc0 := accum;
      assert Covers(acc0, keys);
      var i := 0;
      while i < |keys|
        invariant 0 <= i <= |keys|
        invariant accum.Keys == acc0.Keys
        invariant accum == Push(acc0, keys[..i], samples[..i])
      {
        PushPrefix(acc0, keys, samples, i);
        var c := keys[i];
        accum := accum[c := accum[c] + [samples[i]]];
        i := i + 1;
      }
      assert keys[..|keys|] == keys && samples[..|keys|] == samples;
    }

    /** The writing loop: one line per channel with the means of its buffer,
        stamped with `aligned`. */
    method WriteAverages()
      requires Valid()
      modifies this`dataLines
      ensures dataLines == old(dataLines) + WindowLines(accum, offsets, aligned)
    {
      var keys := SensorChannels();
      ghost var lines := WindowLines(accum, offsets, aligned);
      ghost var before := dataLines;
      ghost var written: seq<DataLine> := [];
      for i := 0 to ChannelCount
        invariant dataLines == before + written
        invariant written == lines[..i]
      {
        var c := keys[i];
        var samples := accum[c];
        var avg := Aggregate(samples);
        var e := Lookup(offsets, Key(c));
        var line := Row(aligned, c.hat, c.ch, e.height, e.sensorNum, avg);
        AppendAssoc(before, written, [line]);
        TakeNext(lines, i);
        dataLines := dataLines + [line];
        written := written + [line];
      }
      TakeAll(lines);
    }

    /** The sampling loop of a window: `SAMPLES_PER_PERIOD` ticks into the
        empty accumulator. */
    method SampleWindow(window: seq<seq<Read>>)
      requires Valid() && Idle() && IsWindow(window)
      modifies this`accum
      ensures Valid()
      ensures accum == Collected(offsets, window)
    {
      var keys := SensorChannels();
      var ticks := WindowSamples(offsets, window);
      for t := 0 to |window|
        invariant Valid()
        invariant accum == Collect(Fresh(keys), keys, ticks[..t])
      {
        CollectPrefix(Fresh(keys), keys, ticks, t);
        SampleTick(window[t]);
      }
      assert ticks[..|window|] == ticks;
      CollectedBuffer(offsets, window);
    }

    /** One iteration of the main loop: the window's ticks, the averages, the
        reset, the next boundary exactly 5 minutes on, and the sleep until it,
        clamped at zero. */
    method RunWindow(window: seq<seq<Read>>, now: int) returns (sleep: int)
      requires Valid() && Idle()
      requires |window| == SamplesPerPeriod && IsWindow(window)
      modifies this`accum, this`dataLines, this`aligned
      ensures Valid() && Idle()
      ensures dataLines == old(dataLines) + WindowRecord(offsets, window, old(aligned))
      ensures aligned == old(aligned) + Window
      ensures sleep == Wait(aligned, now)
    {
      SampleWindow(window);
      WriteAverages();
      accum := Fresh(SensorChannels());
      BoundaryShift(aligned, 1);
      aligned := aligned + Window;
      sleep := Wait(aligned, now);
    }

    /** A bounded run of the endless loop: window `k` is stamped with the k-th
        boundary after the first, whatever the wall clock said in between. */
    method Run(windows: seq<seq<seq<Read>>>, nows: seq<int>)
      requires Valid() && Idle()
      requires |nows| == |windows| && Windows(windows)
      modifies this`accum, this`dataLines, this`aligned
      ensures Valid() && Idle()
      ensures aligned == BoundaryAfter(old(aligned), |windows|)
      ensures dataLines == old(dataLines) + Flatten(RunBlocks(offsets, windows, old(aligned)))
    {
      ghost var blocks := RunBlocks(offsets, windows, aligned);
      ghost var start := aligned;
      ghost var before := dataLines;
      ghost var written: seq<DataLine> := [];
      for k := 0 to |windows|
        invariant Valid() && Idle()
        invariant aligned == BoundaryAfter(start, k)
        invariant dataLines == before + written
        invariant written == Flatten(blocks[..k])
      {
        FlattenPrefix(blocks, k);
        BoundaryAfterStep(start, k);
        var sleep := RunWindow(windows[k], nows[k]);
        AppendAssoc(before, written, blocks[k]);
        written := written + blocks[k];
      }
      TakeAll(blocks);
    }
  }
}
