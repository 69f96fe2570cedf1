/** Values shared by every logger variant: optional values, results, NaN-aware
    floats and what one sensor read yields. */
module Common {

  datatype Option<+T> = None | Some(value: T)

  datatype Result<+T, +E> = Ok(value: T) | Err(error: E)

  /** A Python float that may be NaN: `None` stands for NaN. Infinities and
      rounding are not modelled; a number is an exact `real`. */
  type Float = Option<real>

  const NaN: Float := None

  /** Float addition: NaN on either side gives NaN. */
  function Add(x: Float, y: Float): (r: Float)
    ensures r.Some? <==> x.Some? && y.Some?
  {
    if x.Some? && y.Some? then Some(x.value + y.value) else NaN
  }

  /** Adding zero changes nothing, NaN included. */
  lemma AddZero(x: Float)
    ensures Add(x, Some(0.0)) == x
  {
  }

  /** Float subtraction: NaN on either side gives NaN, and subtracting a number
      is adding its negation. */
  function Sub(x: Float, y: Float): (r: Float)
    ensures r.Some? <==> x.Some? && y.Some?
    ensures y.Some? ==> r == Add(x, Some(-y.value))
  {
    if x.Some? && y.Some? then Some(x.value - y.value) else NaN
  }

  /** One successful pair of `librtd.getRes` / `librtd.get` calls on a channel:
      resistance in ohms and temperature in degrees Celsius. */
  datatype Reading = Reading(resi: real, temp: real)

  /** What the sensor library yields for one channel on one tick: `None` when
      either call raised. */
  type Read = Option<Reading>

  /** One accumulated sample. A failed read stores NaN for resistance and
      temperature, and so NaN for the corrected temperature as well. */
  datatype Sample = Sample(resi: Float, temp: Float, corr: Float)

  /** The decimal digit that `str(n)` gives for a one-digit number. */
  function Digit(n: nat): (c: char)
    requires n < 10
    ensures '0' <= c <= '9'
  {
    (48 + n) as char
  }

  /** Appending two pieces one after the other appends their concatenation. */
  lemma AppendAssoc<T>(a: seq<T>, b: seq<T>, c: seq<T>)
    ensures a + b + c == a + (b + c)
  {
  }

  lemma TakeNext<T>(s: seq<T>, i: nat)
    requires i < |s|
    ensures s[..i + 1] == s[..i] + [s[i]]
  {
  }

  lemma TakeAll<T>(s: seq<T>)
    ensures s[..|s|] == s
  {
  }

  /** The lines of several blocks written one after the other. */
  function Flatten<T>(blocks: seq<seq<T>>): (r: seq<T>)
    ensures blocks == [] ==> r == []
    decreases |blocks|
  {
    if blocks == [] then [] else Flatten(blocks[..|blocks| - 1]) + blocks[|blocks| - 1]
  }

  /** The loop form of `Flatten`: one more block is appended at the end. */
  lemma FlattenPrefix<T>(blocks: seq<seq<T>>, k: nat)
    requires k < |blocks|
    ensures Flatten(blocks[..k + 1]) == Flatten(blocks[..k]) + blocks[k]
  {
    assert blocks[..k + 1][..k] == blocks[..k];
  }

  /** Blocks of `w` lines each flatten to `w` lines per block. */
  lemma {:induction false} FlattenLength<T>(blocks: seq<seq<T>>, w: nat)
    requires forall i :: 0 <= i < |blocks| ==> |blocks[i]| == w
    ensures |Flatten(blocks)| == w * |blocks|
  {
    if blocks != [] {
      var n := |blocks| - 1;
      FlattenLength(blocks[..n], w);
      assert w * (n + 1) == w * n + w;
    }
  }

  /** With blocks of `w` lines each, the k-th run of `w` lines is the k-th block. */
  lemma {:induction false} FlattenBlock<T>(blocks: seq<seq<T>>, w: nat, k: nat)
    requires forall i :: 0 <= i < |blocks| ==> |blocks[i]| == w
    requires k < |blocks|
    ensures w * (k + 1) <= |Flatten(blocks)|
    ensures Flatten(blocks)[w * k..w * (k + 1)] == blocks[k]
  {
    var n := |blocks| - 1;
    var prefix := Flatten(blocks[..n]);
    FlattenLength(blocks[..n], w);
    assert Flatten(blocks) == prefix + blocks[n];
    assert w * (k + 1) == w * k + w;
    if k < n {
      FlattenBlock(blocks[..n], w, k);
      assert w * (k + 1) <= |prefix|;
      assert blocks[..n][k] == blocks[k];
      assert (prefix + blocks[n])[w * k..w * (k + 1)] == prefix[w * k..w * (k + 1)];
    } else {
      assert (prefix + blocks[n])[|prefix|..|prefix| + w] == blocks[n];
    }
  }
}
