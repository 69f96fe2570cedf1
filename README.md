# RTD logger scheduler — a verified model

The repository is a set of Raspberry Pi logging scripts for vertical arrays of
RTD (resistance temperature detector) sensors in snow. Each script polls its
channels on a fixed cadence and applies a per-sensor calibration offset. It
appends its records to a CSV file, aligned to 5-minute wall-clock marks. This
project models the scheduling, accumulation, averaging and calibration core of
the five logger scripts. It proves what each one writes.

- `clock.dfy` (module `Clock`): instants are integer microseconds from an
  hour-aligned origin. The module has the floor to a 5-minute mark, the next
  mark, the k-th mark after a start and the clamped sleep. The floor is
  computed from the minute, second and microsecond digits, as the scripts do.
  It is proved equal to `t - t % 5 min`.
- `common.dfy` (module `Common`): Python floats with NaN, modelled as
  `Option<real>` with NaN as `None`. A sensor read is modelled as
  `Option<Reading>`, with `None` when the vendor library raises. The module
  also has some sequence helpers.
- `averaging.dfy` (module `Averaging`): the NaN-propagating mean and the
  per-field aggregation of a window's samples.
- `accumulator.dfy` (module `Accumulator`): the per-channel dictionary of
  sample lists. It covers the fresh dictionary, one tick of appends and a run
  of ticks.
- `fixed_array_topology.dfy` and `fixed_array_logger.dfy`: the 32-channel
  tower logger (`fixed-array/scripts/log_rtd.py`). It takes 10 ticks per
  window, writes 32 averaged lines stamped with the window's boundary, resets
  and advances the boundary by 5 minutes. Its corrected temperature is
  `temp + offset`.
- `five_minute_logger.dfy`: the other tower logger
  (`fixed-array/scripts/log_rtd_5min.py`). It takes one read of each channel
  per cycle, with no averaging. Its lines are stamped with the clock read
  after the sleep. A channel missing from the calibration file ends the
  program: the lines of all earlier channels are already written.
- `text.dfy` and `pi_serial.dfy`: Python's `strip` and `split` on strings,
  and `get_pi_serial` over the lines of `/proc/cpuinfo`. They also model the
  serial-keyed lookups: sub-directory, offset table and `ch_{n}` keys.
- `mobile_single_logger.dfy`: the 8-channel mobile logger
  (`mobile-array/scripts/log_rtd_single.py`). It builds a fresh accumulator
  per window and writes one line per channel stamped with the boundary. Its
  corrected temperature is `temp - offset`, with a default offset of 0.
- `rolling_logger.dfy`: the two pandas loggers (`scripts/log_rtd.py` and
  `mobile-array/scripts/log_rtd.py`). Their modelled core differs only in where the offsets
  come from: a literal table, or the board's entry in the offsets file. The
  module models `read_sensors`, the `tail(600)` buffer and the `.seconds`
  trigger. A hand-over to the aggregation writes a header only while the file
  is empty.

Every `while True` loop is a step method (one window, one cycle or one
iteration) plus a `Run` method that performs a bounded number of steps. Sensor
reads and clock readings are parameters of those methods.

## Model

| member | source | states |
|---|---|---|
| Common.Add | fixed-array/scripts/log_rtd.py:110 | `temp + offset` is a number exactly when both operands are; NaN on either side gives NaN |
| Common.Sub | mobile-array/scripts/log_rtd_single.py:103 | `temp - offset` is a number exactly when both operands are, and subtracting a number is adding its negation |
| Clock.FloorToBoundary | fixed-array/scripts/log_rtd_5min.py:57-59 | the floored instant is a 5-minute mark (minute a multiple of 5, zero seconds and microseconds), at most `now` and less than 5 minutes before it |
| Clock.FloorIsModulo | fixed-array/scripts/log_rtd.py:80-81 | flooring the minute and zeroing seconds and microseconds is subtracting `t % 5 min` |
| Clock.NextBoundary | fixed-array/scripts/log_rtd.py:79-82 | the startup boundary is a 5-minute mark strictly after `now` and at most 5 minutes after it |
| Clock.Wait | fixed-array/scripts/log_rtd.py:157-160 | the sleep is never negative; it is zero exactly when the boundary has already passed, and otherwise it ends exactly on the boundary |
| Clock.BoundaryAfter | fixed-array/scripts/log_rtd.py:153 | the k-th boundary after an aligned start is aligned, and it is later than the start exactly when k > 0 |
| Clock.BoundaryAfterStep | fixed-array/scripts/log_rtd.py:153 | each boundary is the previous one plus exactly 5 minutes (no drift from the clock) |
| Clock.BoundaryShift | fixed-array/scripts/log_rtd.py:153 | adding whole windows to a 5-minute mark gives a 5-minute mark |
| Clock.ExampleSchedule | mobile-array/scripts/log_rtd_single.py:73-76 | startup at 10:02:17 schedules 10:05:00, and the boundary after 10:05:00 is 10:10:00 |
| Averaging.Sum | fixed-array/scripts/log_rtd.py:128-130 | the sum is a number exactly when every entry is a number |
| Averaging.Mean | fixed-array/scripts/log_rtd.py:127-132 | the mean is NaN exactly when the buffer is empty or holds a NaN |
| Averaging.SumShift | fixed-array/scripts/log_rtd.py:128-130 | shifting every entry by `c` shifts the sum by `n * c`, and NaN stays NaN |
| Averaging.MeanShift | fixed-array/scripts/log_rtd.py:128-130 | the mean of entries shifted by `c` is the mean shifted by `c` |
| Averaging.SumConstant | fixed-array/scripts/log_rtd.py:128-130 | `n` copies of `v` sum to `n * v` |
| Averaging.MeanConstant | fixed-array/scripts/log_rtd.py:128-130 | the mean of a nonempty buffer of one repeated value is that value |
| Averaging.SumBounds | fixed-array/scripts/log_rtd.py:128-130 | entries between `lo` and `hi` sum to between `n * lo` and `n * hi` |
| Averaging.MeanBounds | fixed-array/scripts/log_rtd.py:128-130 | the mean of entries between `lo` and `hi` lies between them |
| Averaging.AggregateConstant | fixed-array/scripts/log_rtd.py:127-132 | a nonempty buffer of one repeated sample averages to that sample in all three fields |
| Averaging.Resistances | fixed-array/scripts/log_rtd.py:128 | the resistance column has one entry per sample, the sample's resistance |
| Averaging.Temperatures | fixed-array/scripts/log_rtd.py:129 | the temperature column has one entry per sample, the sample's temperature |
| Averaging.Corrected | fixed-array/scripts/log_rtd.py:130 | the corrected column has one entry per sample, the sample's corrected temperature |
| Averaging.Aggregate | fixed-array/scripts/log_rtd.py:127-132 | an empty buffer gives NaN in all three fields; each field is a number exactly when the buffer is nonempty and every entry of that field is a number |
| Averaging.AggregateCorrected | fixed-array/scripts/log_rtd.py:110-130 | when every sample's corrected temperature is its raw one plus the offset, the corrected mean is the raw mean plus the offset |
| Accumulator.Fresh | fixed-array/scripts/log_rtd.py:73 | the fresh dictionary has exactly the listed keys, each with an empty buffer |
| Accumulator.Push | fixed-array/scripts/log_rtd.py:96-113 | one tick keeps the dictionary's key set |
| Accumulator.PushPrefix | fixed-array/scripts/log_rtd.py:96-113 | handling one more key of a tick appends that key's sample to its buffer |
| Accumulator.PushAppends | fixed-array/scripts/log_rtd.py:96-113 | a tick appends exactly `samples[i]` to the buffer of `keys[i]` and leaves every other buffer alone |
| Accumulator.Column | fixed-array/scripts/log_rtd.py:95-113 | the column of key `i` holds, per tick, that tick's sample for key `i` |
| Accumulator.Collect | fixed-array/scripts/log_rtd.py:95-113 | a run of ticks keeps the dictionary's key set |
| Accumulator.CollectPrefix | fixed-array/scripts/log_rtd.py:95-113 | running one more tick pushes its samples |
| Accumulator.CollectColumn | fixed-array/scripts/log_rtd.py:95-113 | after a run of ticks each buffer has grown by exactly its key's samples, one per tick, in tick order |
| Accumulator.FreshCollect | fixed-array/scripts/log_rtd.py:95-113 | from fresh buffers, after N ticks every buffer holds exactly its key's N samples |
| Accumulator.FreshCollectIs | fixed-array/scripts/log_rtd.py:95-113 | a dictionary with the same keys whose every buffer is its key's column is exactly what a run of ticks makes from fresh buffers |
| Accumulator.DistinctCount | fixed-array/scripts/log_rtd.py:73 | distinct keys give a dictionary with exactly that many entries |
| FixedArrayTopology.SensorChannels | fixed-array/scripts/log_rtd.py:70 | `sensor_keys` has 32 entries, each a valid (hat 0..3, channel 1..8) pair |
| FixedArrayTopology.Index | fixed-array/scripts/log_rtd.py:70 | a channel's position in `sensor_keys` is below 32 |
| FixedArrayTopology.SensorChannelsIndex | fixed-array/scripts/log_rtd.py:70 | position and channel are inverse to each other |
| FixedArrayTopology.SensorChannelsOrder | fixed-array/scripts/log_rtd.py:70-73 | `sensor_keys` is in hat-then-channel order, has no repeats and holds exactly the valid pairs |
| FixedArrayTopology.KeyDecodes | fixed-array/scripts/log_rtd.py:70 | the key `h{hat}c{ch}` spells the hat and the channel as one decimal digit each, so both can be read back from it |
| FixedArrayTopology.KeyInjective | fixed-array/scripts/log_rtd.py:70 | distinct channels have distinct `h{hat}c{ch}` keys |
| FixedArrayTopology.Lookup | fixed-array/scripts/log_rtd.py:106-108 | a configured key gives its entry; a missing one gives NaN height, NaN sensor number and offset 0 |
| FixedArrayTopology.FreshAccumulator | fixed-array/scripts/log_rtd.py:73 | the fresh accumulator has exactly 32 keys, the valid channels, all empty |
| FixedArrayLogger.SampleOf | fixed-array/scripts/log_rtd.py:97-113 | the stored corrected temperature is the raw one plus the channel's offset; a failed read stores NaN in all three fields |
| FixedArrayLogger.TickSamples | fixed-array/scripts/log_rtd.py:96-113 | a tick yields one sample per channel, in `sensor_keys` order, each from that channel's read |
| FixedArrayLogger.WindowSamples | fixed-array/scripts/log_rtd.py:95-113 | a window yields one tick of 32 samples per sampling round |
| FixedArrayLogger.WindowLines | fixed-array/scripts/log_rtd.py:123-143 | a window writes exactly 32 lines, the i-th for the i-th channel of `sensor_keys` |
| FixedArrayLogger.WindowLinesShape | fixed-array/scripts/log_rtd.py:121-143 | every line is a data row stamped with `aligned`, and the lines are in hat-then-channel order with the right hat and channel |
| FixedArrayLogger.CollectedBuffer | fixed-array/scripts/log_rtd.py:95-113 | sampling a window into fresh buffers leaves each channel's buffer holding one sample per tick, the t-th built from that channel's t-th read |
| FixedArrayLogger.RecordLine | fixed-array/scripts/log_rtd.py:121-143 | the line a window writes for a channel is built from that channel's own buffer |
| FixedArrayLogger.WindowLineCalibration | fixed-array/scripts/log_rtd.py:106-136 | the corrected mean is the raw mean plus the offset; an unconfigured channel logs NaN height and sensor number, and its corrected mean equals its raw mean |
| FixedArrayLogger.FailedReadPoisonsLine | fixed-array/scripts/log_rtd.py:97-132 | one failed read of a channel in a window makes all three of its means NaN, and its line is still written |
| FixedArrayLogger.EmptyWindowLine | fixed-array/scripts/log_rtd.py:127-132 | with no ticks every channel's means are NaN |
| FixedArrayLogger.SteadySamples | fixed-array/scripts/log_rtd.py:127-132 | a buffer of one repeated read averages to that read, with the temperature plus the offset as corrected mean |
| FixedArrayLogger.SteadyReadsLine | fixed-array/scripts/log_rtd.py:127-132 | a channel read with the same values on every tick logs those values, and the temperature plus the offset as corrected mean |
| FixedArrayLogger.WindowRecord | fixed-array/scripts/log_rtd.py:121-143 | a window writes one line per channel, each with its own hat and channel and all stamped with the window's boundary |
| FixedArrayLogger.RunBlocks | fixed-array/scripts/log_rtd.py:121-153 | window k of a run is recorded with the k-th boundary after the first |
| FixedArrayLogger.RunRecordWindow | fixed-array/scripts/log_rtd.py:121-160 | in a run the k-th block of 32 lines is exactly window k's record, stamped with the k-th boundary after the first |
| FixedArrayLogger.TowerLogger.constructor | fixed-array/scripts/log_rtd.py:57-82 | the header is written only when the data file is new; the accumulator starts empty; the first boundary is the next 5-minute mark |
| FixedArrayLogger.TowerLogger.SampleTick | fixed-array/scripts/log_rtd.py:96-113 | a tick appends to the accumulator one sample per channel, built from that channel's read |
| FixedArrayLogger.TowerLogger.AppendSamples | fixed-array/scripts/log_rtd.py:96-113 | the channel loop appends `samples[i]` to the i-th channel's buffer, in `sensor_keys` order |
| FixedArrayLogger.TowerLogger.WriteAverages | fixed-array/scripts/log_rtd.py:123-143 | the writing loop appends exactly the window's 32 lines to the data file |
| FixedArrayLogger.TowerLogger.SampleWindow | fixed-array/scripts/log_rtd.py:95-115 | the sampling loop leaves the accumulator at the collected window, starting from empty buffers |
| FixedArrayLogger.TowerLogger.RunWindow | fixed-array/scripts/log_rtd.py:90-160 | one window appends its record stamped with the current boundary, resets the buffers, moves the boundary on by exactly 5 minutes and sleeps the clamped time to it |
| FixedArrayLogger.TowerLogger.Run | fixed-array/scripts/log_rtd.py:90-160 | after k windows the boundary is the k-th after the first, and the file has gained each window's record in order |
| FiveMinuteLogger.Calibration | fixed-array/scripts/log_rtd_5min.py:84-85 | a configured channel gives its entry; an unconfigured one gives the unpacking error naming it |
| FiveMinuteLogger.RowOf | fixed-array/scripts/log_rtd_5min.py:75-89 | the line carries the stamp, hat, channel, sensor number and height; corrected = raw + offset; a failed read gives NaN resistance and temperatures |
| FiveMinuteLogger.Stop | fixed-array/scripts/log_rtd_5min.py:73-85 | the position of the first unconfigured channel in writing order, or 32; every channel before it is configured |
| FiveMinuteLogger.StopFrom | fixed-array/scripts/log_rtd_5min.py:73-85 | scanning from position i finds the first unconfigured channel at or after i |
| FiveMinuteLogger.StopIsFirstMissing | fixed-array/scripts/log_rtd_5min.py:73-85 | `Stop` is the position of the first unconfigured channel |
| FiveMinuteLogger.Rows | fixed-array/scripts/log_rtd_5min.py:73-90 | the first n lines are those of the first n channels in hat-then-channel order |
| FiveMinuteLogger.RowsNext | fixed-array/scripts/log_rtd_5min.py:73-90 | one more channel appends exactly its line |
| FiveMinuteLogger.CycleRows | fixed-array/scripts/log_rtd_5min.py:71-90 | a cycle writes the lines of the channels in hat-then-channel order up to, and not including, the first unconfigured one |
| FiveMinuteLogger.CycleError | fixed-array/scripts/log_rtd_5min.py:85 | a cycle fails exactly when some channel is unconfigured |
| FiveMinuteLogger.CycleBlocks | fixed-array/scripts/log_rtd_5min.py:61-90 | cycle k of a run writes its lines stamped with its own clock reading |
| FiveMinuteLogger.CycleComplete | fixed-array/scripts/log_rtd_5min.py:71-90 | a cycle completes exactly when every channel is configured, and then it writes 32 lines, hat 0..3 outer and channel 1..8 inner |
| FiveMinuteLogger.CycleStops | fixed-array/scripts/log_rtd_5min.py:85 | an error names the first unconfigured channel; every earlier channel is configured and written, and nothing after it is |
| FiveMinuteLogger.Logger.constructor | fixed-array/scripts/log_rtd_5min.py:52-59 | the header is written only when the data file does not exist; `time_rounded` is a 5-minute mark at most `now` |
| FiveMinuteLogger.Logger.Cycle | fixed-array/scripts/log_rtd_5min.py:61-90 | `time_rounded` first moves on by exactly 5 minutes; the sleep is `max(0, time_rounded - now)`; the lines are stamped with the clock read after the sleep |
| FiveMinuteLogger.Logger.WriteCycle | fixed-array/scripts/log_rtd_5min.py:71-90 | the nested loops append the cycle's lines and end with the unpacking error of the first unconfigured channel, if any |
| FiveMinuteLogger.Logger.Run | fixed-array/scripts/log_rtd_5min.py:61-90 | either every cycle completes, or the first one stops the run; `time_rounded` is then the k-th mark after the start, and the file has gained each cycle's lines |
| Text.LeadingSpace | mobile-array/scripts/log_rtd_single.py:49 | the count of leading whitespace characters, the next character being non-space |
| Text.TrailingSpace | mobile-array/scripts/log_rtd_single.py:49 | the count of trailing whitespace characters, the previous character being non-space |
| Text.Strip | mobile-array/scripts/log_rtd_single.py:49 | `strip()` is the middle slice left after removing leading and trailing whitespace, and it neither starts nor ends with whitespace |
| Text.StripIdempotent | mobile-array/scripts/log_rtd_single.py:49 | stripping twice is stripping once |
| Text.IndexOf | mobile-array/scripts/log_rtd_single.py:49 | the position of the first separator, or the length when there is none |
| Text.Split | mobile-array/scripts/log_rtd_single.py:49 | `split(sep)` has at least one part and no part contains the separator |
| Text.SplitSeveral | mobile-array/scripts/log_rtd_single.py:49 | there is a second part exactly when the separator occurs |
| Text.JoinSplit | mobile-array/scripts/log_rtd_single.py:49 | joining the parts of a split gives back the string |
| Text.SplitJoin | mobile-array/scripts/log_rtd_single.py:49 | splitting a join of separator-free parts gives back the parts |
| PiSerial.SerialFieldValue | mobile-array/scripts/log_rtd_single.py:49 | the field is the stripped text between the first colon of the stripped line and the next colon, or the end of the line |
| PiSerial.SerialField | mobile-array/scripts/log_rtd_single.py:49 | the field exists exactly when the line has a colon; it holds no colon and is already stripped; otherwise the `IndexError` names the line |
| PiSerial.ColonSurvivesStrip | mobile-array/scripts/log_rtd_single.py:49 | stripping never removes a colon |
| PiSerial.GetPiSerial | mobile-array/scripts/log_rtd_single.py:45-50 | the field of the first line starting with `Serial`, or `"00000000"` when no line does |
| PiSerial.SubDir | mobile-array/scripts/log_rtd.py:55-56 | a known serial maps to its directory, an unknown one to `"UNKNOWN_PI"` |
| PiSerial.OffsetTable | mobile-array/scripts/log_rtd_single.py:53 | a known serial gives its offsets, an unknown one an empty table |
| PiSerial.OffsetKey | mobile-array/scripts/log_rtd_single.py:103 | the key is `ch_` followed by one character |
| PiSerial.OffsetKeyInjective | mobile-array/scripts/log_rtd_single.py:103 | distinct channels have distinct `ch_{n}` keys |
| MobileSingleLogger.Channels | mobile-array/scripts/log_rtd_single.py:68 | `CHANNELS` is 1 to 8 in order |
| MobileSingleLogger.ChannelsDistinct | mobile-array/scripts/log_rtd_single.py:88 | the accumulator's keys are distinct and are exactly 1 to 8 |
| MobileSingleLogger.OffsetOf | mobile-array/scripts/log_rtd_single.py:103 | a configured `ch_{n}` gives its offset, a missing one 0 |
| MobileSingleLogger.DeviceOffsets | mobile-array/scripts/log_rtd_single.py:45-53 | startup fails exactly when `get_pi_serial` fails; otherwise the table is the serial's entry of the offsets file, or empty |
| MobileSingleLogger.SampleOf | mobile-array/scripts/log_rtd_single.py:95-104 | corrected = raw minus the channel's offset; a failed read stores NaN in all three fields |
| MobileSingleLogger.TickSamples | mobile-array/scripts/log_rtd_single.py:94-104 | a tick yields one sample per channel 1..8, each from that channel's read |
| MobileSingleLogger.WindowSamples | mobile-array/scripts/log_rtd_single.py:93-106 | a window yields one tick of 8 samples per sampling round |
| MobileSingleLogger.WindowLines | mobile-array/scripts/log_rtd_single.py:114-130 | a window writes exactly 8 lines, the i-th for channel i + 1, stamped `aligned`, with that channel's means |
| MobileSingleLogger.CollectedBuffer | mobile-array/scripts/log_rtd_single.py:88-106 | sampling a window into the fresh accumulator leaves each channel's buffer holding one sample per tick, the t-th from its t-th read |
| MobileSingleLogger.WindowLineShape | mobile-array/scripts/log_rtd_single.py:111-130 | 8 lines, channel 1 to 8, all stamped `aligned`; the corrected mean is the raw mean minus the offset |
| MobileSingleLogger.UnknownDeviceUncorrected | mobile-array/scripts/log_rtd_single.py:53-103 | for a board missing from the offsets file the corrected mean equals the raw mean on every line |
| MobileSingleLogger.FailedReadPoisonsLine | mobile-array/scripts/log_rtd_single.py:95-122 | one failed read makes all three of that channel's means NaN, and the line is still written |
| MobileSingleLogger.SteadyReadsLine | mobile-array/scripts/log_rtd_single.py:117-120 | constant reads log those values, and the temperature minus the offset as corrected mean |
| MobileSingleLogger.WindowRecord | mobile-array/scripts/log_rtd_single.py:111-131 | a window writes eight lines, channels 1 to 8 in order, all stamped with the window's boundary |
| MobileSingleLogger.RunBlocks | mobile-array/scripts/log_rtd_single.py:111-137 | window k of a run is recorded with the k-th boundary after the first |
| MobileSingleLogger.Logger.constructor | mobile-array/scripts/log_rtd_single.py:58-76 | the header is written only when the data file is missing; the first boundary is a 5-minute mark strictly after `now`, at most 5 minutes on |
| MobileSingleLogger.Logger.SampleTick | mobile-array/scripts/log_rtd_single.py:94-104 | a tick appends each channel's sample to its buffer, channel 1 first |
| MobileSingleLogger.Logger.SampleWindow | mobile-array/scripts/log_rtd_single.py:88-106 | the window starts from a fresh accumulator with keys 1..8 and ends at the collected window |
| MobileSingleLogger.Logger.WriteAverages | mobile-array/scripts/log_rtd_single.py:111-130 | the writing loop appends exactly the window's 8 lines |
| MobileSingleLogger.Logger.RunWindow | mobile-array/scripts/log_rtd_single.py:83-144 | one window appends its record stamped with the current boundary, moves the boundary on by exactly 5 minutes and sleeps the clamped time to it |
| MobileSingleLogger.Logger.Run | mobile-array/scripts/log_rtd_single.py:83-144 | after k windows the boundary is the k-th after the first, and the file has gained each window's record in order |
| RollingLogger.OffsetFor | mobile-array/scripts/log_rtd.py:102-103 | the literal table has an offset for every channel; a per-serial table yields `None` for a missing `ch_{n}` |
| RollingLogger.RowOf | scripts/log_rtd.py:42-46 | a row carries the shared time, the channel, both readings and `temp - offset`; a failed read raises first, then a missing offset |
| RollingLogger.RowsUpTo | scripts/log_rtd.py:41-46 | a successful scan of n channels yields n rows |
| RollingLogger.RowsUpToOk | scripts/log_rtd.py:41-46 | the scan succeeds exactly when every channel does, and row i is channel i + 1's |
| RollingLogger.RowsUpToErr | scripts/log_rtd.py:41-46 | a failing scan raises the error of the first channel that fails |
| RollingLogger.SensorRows | scripts/log_rtd.py:36-48 | `read_sensors` succeeds exactly when every channel's read and offset lookup does, and then returns 8 rows |
| RollingLogger.SensorRowsShape | scripts/log_rtd.py:39-46 | `read_sensors` returns 8 rows for channels 1..8 in order, sharing one timestamp, corrected = raw minus offset |
| RollingLogger.FixedTableOnlySensorsFail | scripts/log_rtd.py:22-44 | with the literal table the lookup never fails: `read_sensors` fails exactly when a read does, naming the first such channel |
| RollingLogger.UnknownSerialFails | mobile-array/scripts/log_rtd.py:88-103 | on an unknown board the first channel raises for its missing offset, even when its read succeeds |
| RollingLogger.Tail | mobile-array/scripts/log_rtd.py:115 | `tail(600)` keeps at most 600 rows, the most recent ones, in arrival order |
| RollingLogger.TailAppend | scripts/log_rtd.py:56 | trimming before appending loses nothing: the buffer is always the tail of all rows read |
| RollingLogger.DaySeconds | scripts/log_rtd.py:98 | `.seconds` is below one day |
| RollingLogger.ShouldEmit | scripts/log_rtd.py:98 | the trigger never fires within 300 s of the last hand-over unless the clock went back; for a gap shorter than a day it fires exactly when 300 s have passed |
| RollingLogger.DaySecondsWithinDay | scripts/log_rtd.py:98 | for a gap shorter than a day, `.seconds` is the gap in whole seconds, and the trigger fires exactly at 300 s or more |
| RollingLogger.DaySecondsWholeDays | scripts/log_rtd.py:98 | adding any whole number of days, forward or back, to a gap leaves its `.seconds` unchanged |
| RollingLogger.DaySecondsStepBack | mobile-array/scripts/log_rtd.py:157 | for a clock that steps back by at most a day, `.seconds` is a day minus the step rounded up to whole seconds, and the trigger fires exactly when the step back is at most 86100 s |
| RollingLogger.DaySecondsDropsDays | mobile-array/scripts/log_rtd.py:157 | a gap of one day and 60 s reads as 60, so it does not trigger |
| RollingLogger.DaySecondsNegativeGap | mobile-array/scripts/log_rtd.py:157 | a clock that steps back by 1 µs reads as 86399 s, so it triggers at once |
| RollingLogger.Logger.constructor | scripts/log_rtd.py:88 | the buffer starts empty and `last_logged_time` is the start time |
| RollingLogger.Logger.ReadSensors | mobile-array/scripts/log_rtd.py:94-107 | the loop returns the rows of `read_sensors`, or the error of the first channel that raises |
| RollingLogger.Logger.Step | scripts/log_rtd.py:91-103 | a failed read changes nothing and escapes; otherwise the rows are appended and the buffer trimmed to 600, and the buffer is handed over exactly when `.seconds >= 300`, which sets `last_logged_time` to `current_time` and writes the header only while the file is empty |
| RollingLogger.Logger.Run | mobile-array/scripts/log_rtd.py:144-165 | every iteration before the one the run stops at read all channels successfully; the run stops only at a failed read, with that read's error; every successful iteration collects 8 rows, whether or not it hands over; the buffer stays the last 600 rows read |

## Left out

- The sensor library (`librtd.get`, `librtd.getRes`) is foreign code. Each read is an input, either a reading or a failure.
- Real time is not modelled: `time.sleep`, `datetime.utcnow()` and `datetime.now()` are inputs. The sleep is returned as a value. Local time against UTC, daylight-saving jumps and leap seconds are not modelled. Instants are microseconds from an hour-aligned origin.
- The 30 s sleep between ticks has no effect on what is written. It is not modelled.
- Floats are exact reals. Rounding (`round`, `:.1f`, `round(temp, 4)`), infinities and the text format of a CSV line are not modelled. NaN is modelled as `None`.
- File and log I/O are not modelled. This covers `open`, `is_file`, `exists`, `os.makedirs`, the `logging` module, `log_message` and every log line. The data file is a sequence of line values. "The file exists" and "the file is empty" are booleans given at startup.
- JSON loading is not modelled. The offsets and serial tables are maps given at startup. Malformed calibration entries (a list that is not three long) are not modelled.
- The pandas `groupby`/`Grouper` aggregation is not modelled, nor `pd.concat` and `pd.to_datetime`. A hand-over records the buffer the aggregation receives and whether a header goes first.
- RollingLogger.Logger.Run: states which iterations read successfully, the number of rows read, the buffer and a bound on the number of hand-overs. It does not state which rows the history gained across the whole run, or what each hand-over holds. Both are stated for one iteration at a time by `Step`. Stating them across the run made the proof too costly for the verifier's resource limit.
- RollingLogger.Logger.Step: reads `file.tell() == 0` as "no hand-over has written yet and the file was empty at startup". That holds because only the logger appends to the file.
- The header of `fixed-array/scripts/log_rtd_5min.py` names 7 columns, while each line writes 8 values (sensor number before height). The model keeps the written order and does not model the column names.
- A `Serial` line of `/proc/cpuinfo` is modelled as text with ASCII and Latin-1 whitespace. Other Unicode whitespace that `strip()` removes is not modelled.
- `scripts/rtd_run.py` and `fixed-array/scripts/rtd_run.py` are not part of this model. They are one-shot diagnostic scripts that print readings.
- Commented-out code is not part of this model: `fixed-array/scripts/log_rtd.py` after line 165, `scripts/log_rtd.py` after line 112, and the header of `mobile-array/scripts/log_rtd.py`.
- `mobile-array/scripts/log_rtd.py` defines `get_pi_serial` twice (lines 44-49 and 81-86), with the same body as the single-board script. It is modelled once, as `PiSerial.GetPiSerial`. The rolling logger takes the resulting offset table as its offset source.
- The `while True` loops run for a bounded number of iterations. `KeyboardInterrupt` handling is not modelled.
