/** Device identity of the mobile loggers: the serial number read from the
    lines of `/proc/cpuinfo`, and the lookups keyed by it. */
module PiSerial {
  import opened Common
  import opened Text

  /** What `get_pi_serial` returns when no line names a serial. */
  const DefaultSerial: string := "00000000"

  /** The sub-directory used for a device missing from the serial table. */
  const UnknownPi: string := "UNKNOWN_PI"

  /** The `IndexError` of `split(":")[1]` on a `Serial` line without a colon. */
  datatype SerialError = NoColon(line: string)

  predicate IsSerialLine(line: string)
  {
    StartsWith(line, "Serial")
  }

  /** `line.strip().split(":")[1].strip()`. */
  function SerialField(line: string): (r: Result<string, SerialError>)
    ensures r.Ok? <==> ':' in line
    ensures r.Err? ==> r == Err(NoColon(line))
    ensures r.Ok? ==> ':' !in r.value && Strip(r.value) == r.value
  {
    var parts := Split(Strip(line), ':');
    ColonSurvivesStrip(line);
    SplitSeveral(Strip(line), ':');
    if |parts| < 2 then
      Err(NoColon(line))
    else
      StripIdempotent(parts[1]);
      assert ':' !in parts[1];
      Ok(Strip(parts[1]))
  }

  /** The field is the text between the first and the second colon of the
      stripped line (or up to its end), stripped again. */
  lemma SerialFieldValue(line: string, pre: string, post: string)
    requires Strip(line) == pre + [':'] + post && ':' !in pre
    ensures SerialField(line) == Ok(Strip(post[..IndexOf(post, ':')]))
  {
    SplitAfterFirst(pre, ':', post);
    SplitFirst(post, ':');
  }

  /** Stripping never removes a colon, since a colon is not whitespace. */
  lemma ColonSurvivesStrip(line: string)
    ensures ':' in Strip(line) <==> ':' in line
  {
    var i := LeadingSpace(line);
    var r := Strip(line);
    if ':' in line {
      var k :| 0 <= k < |line| && line[k] == ':';
      assert !IsSpace(line[k]);
      assert i <= k < i + |r|;
      assert r[k - i] == ':';
    }
  }

  /** `get_pi_serial`: the field of the first line that starts with `Serial`,
      or the default serial when no line does. */
  function GetPiSerial(lines: seq<string>): (r: Result<string, SerialError>)
    ensures (forall i :: 0 <= i < |lines| ==> !IsSerialLine(lines[i])) ==> r == Ok(DefaultSerial)
    ensures forall i :: (0 <= i < |lines| && IsSerialLine(lines[i])
                         && forall j :: 0 <= j < i ==> !IsSerialLine(lines[j]))
                        ==> r == SerialField(lines[i])
  {
    if lines == [] then Ok(DefaultSerial)
    else if IsSerialLine(lines[0]) then SerialField(lines[0])
    else
      var r := GetPiSerial(lines[1..]);
      assert forall i :: 1 <= i < |lines| ==> lines[1..][i - 1] == lines[i];
      r
  }

  /** `serial_to_dir.get(serial, "UNKNOWN_PI")`. */
  function SubDir(serialToDir: map<string, string>, serial: string): (dir: string)
    ensures serial in serialToDir ==> dir == serialToDir[serial]
    ensures serial !in serialToDir ==> dir == UnknownPi
  {
    if serial in serialToDir then serialToDir[serial] else UnknownPi
  }

  /** `f"ch_{ch}"`: the key of channel `ch` (1 to 8) in a device's offsets. */
  function OffsetKey(ch: nat): (key: string)
    requires 1 <= ch <= 8
    ensures |key| == 4 && key[..3] == "ch_"
  {
    "ch_" + [Digit(ch)]
  }

  lemma OffsetKeyInjective(a: nat, b: nat)
    requires 1 <= a <= 8 && 1 <= b <= 8 && OffsetKey(a) == OffsetKey(b)
    ensures a == b
  {
    assert OffsetKey(a)[3] == OffsetKey(b)[3];
  }

  /** `offsets_all.get(pi_serial, {})`: the per-channel offsets of a device. */
  function OffsetTable(offsetsAll: map<string, map<string, real>>, serial: string): (t: map<string, real>)
    ensures serial in offsetsAll ==> t == offsetsAll[serial]
    ensures serial !in offsetsAll ==> t == map[]
  {
    if serial in offsetsAll then offsetsAll[serial] else map[]
  }
}
