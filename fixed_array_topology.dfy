/** The fixed tower: four hats of eight RTD channels, the `h{hat}c{ch}` keys of
    the calibration file and the calibration entries themselves. */
module FixedArrayTopology {
  import opened Common
  import opened Accumulator

  const Hats: nat := 4
  const ChannelsPerHat: nat := 8
  const ChannelCount: nat := 32

  /** A sensor position: hat 0..3, channel 1..8 on that hat. */
  datatype Channel = Channel(hat: nat, ch: nat)

  predicate IsChannel(c: Channel)
  {
    c.hat < Hats && 1 <= c.ch <= ChannelsPerHat
  }

  /** Hat-then-channel order. */
  predicate Before(a: Channel, b: Channel)
  {
    a.hat < b.hat || (a.hat == b.hat && a.ch < b.ch)
  }

  /** `[(hat, ch) for hat in range(4) for ch in range(1, 9)]`, flattened: the
      order of `sensor_keys`, of the accumulator's keys and of every sampling
      and writing loop. */
  function SensorChannels(): (keys: seq<Channel>)
    ensures |keys| == ChannelCount
    ensures forall i :: 0 <= i < |keys| ==> IsChannel(keys[i])
  {
    seq(Hats * ChannelsPerHat, i requires 0 <= i < Hats * ChannelsPerHat =>
      Channel(i / ChannelsPerHat, i % ChannelsPerHat + 1))
  }

  /** The position of a channel in `SensorChannels()`. */
  function Index(c: Channel): (i: nat)
    requires IsChannel(c)
    ensures i < ChannelCount
  {
    c.hat * ChannelsPerHat + c.ch - 1
  }

  /** `Index` and `SensorChannels` are inverse to each other. */
  lemma SensorChannelsIndex()
    ensures forall i :: 0 <= i < ChannelCount ==> Index(SensorChannels()[i]) == i
    ensures forall c :: IsChannel(c) ==> SensorChannels()[Index(c)] == c
  {
    var keys := SensorChannels();
    forall c | IsChannel(c) ensures keys[Index(c)] == c {
      var i := Index(c);
      assert i / ChannelsPerHat == c.hat && i % ChannelsPerHat == c.ch - 1;
    }
  }

  /** `sensor_keys` lists each of the 32 (hat, channel) pairs exactly once, in
      hat-then-channel order. */
  lemma SensorChannelsOrder()
    ensures forall i, j :: 0 <= i < j < ChannelCount ==> Before(SensorChannels()[i], SensorChannels()[j])
    ensures Distinct(SensorChannels())
    ensures forall c :: c in SensorChannels() <==> IsChannel(c)
  {
    SensorChannelsIndex();
    var keys := SensorChannels();
    forall i, j | 0 <= i < j < ChannelCount ensures Before(keys[i], keys[j]) {
      assert i / ChannelsPerHat <= j / ChannelsPerHat;
    }
  }

  /** `f"h{hat}c{ch}"`, the calibration key of a channel. */
  function Key(c: Channel): string
    requires IsChannel(c)
  {
    "h" + [Digit(c.hat)] + "c" + [Digit(c.ch)]
  }

  /** A key is `h`, the hat as one decimal digit, `c`, and the channel as one
      decimal digit, so the channel can be read back from it. */
  lemma KeyDecodes(c: Channel)
    requires IsChannel(c)
    ensures |Key(c)| == 4 && Key(c)[0] == 'h' && Key(c)[2] == 'c'
    ensures Key(c)[1] as int - '0' as int == c.hat && Key(c)[3] as int - '0' as int == c.ch
  {
  }

  /** Distinct channels have distinct calibration keys. */
  lemma KeyInjective(a: Channel, b: Channel)
    requires IsChannel(a) && IsChannel(b) && Key(a) == Key(b)
    ensures a == b
  {
    KeyDecodes(a);
    KeyDecodes(b);
  }

  /** A calibration entry `[height_cm, sensor_number, offset]`. */
  datatype CalEntry = CalEntry(height: Float, sensorNum: Float, offset: real)

  type Offsets = map<string, CalEntry>

  /** The default `[nan, nan, 0]` of the tower logger. */
  const Unconfigured: CalEntry := CalEntry(NaN, NaN, 0.0)

  /** `offsets_dict.get(key, [nan, nan, 0])`. */
  function Lookup(offsets: Offsets, key: string): (e: CalEntry)
    ensures key in offsets ==> e == offsets[key]
    ensures key !in offsets ==> e.height == NaN && e.sensorNum == NaN && e.offset == 0.0
  {
    if key in offsets then offsets[key] else Unconfigured
  }

  /** `{(hat, ch): [] for hat in range(4) for ch in range(1, 9)}` has exactly the
      32 channels of `sensor_keys` as keys, each with an empty buffer. */
  lemma FreshAccumulator()
    ensures |Fresh(SensorChannels()).Keys| == ChannelCount
    ensures forall c :: c in Fresh(SensorChannels()) <==> IsChannel(c)
    ensures forall c :: c in Fresh(SensorChannels()) ==> Fresh(SensorChannels())[c] == []
  {
    SensorChannelsOrder();
    DistinctCount(SensorChannels());
  }
}
