/** The window mean of the averaging loggers: Python's `sum(...) / len(...)`
    over a buffer, guarded by `if samples` so that an empty buffer gives NaN. */
module Averaging {
  import opened Common

  predicate AllNumbers(xs: seq<Float>)
  {
    forall i :: 0 <= i < |xs| ==> xs[i].Some?
  }

  /** Python's `sum`: a left fold from 0 in which a NaN poisons the total. */
  function Sum(xs: seq<Float>): (r: Float)
    ensures r.Some? <==> AllNumbers(xs)
  {
    if xs == [] then Some(0.0)
    else
      var n := |xs| - 1;
      assert AllNumbers(xs) <==> AllNumbers(xs[..n]) && xs[n].Some? by {
        assert forall i :: 0 <= i < n ==> xs[..n][i] == xs[i];
      }
      Add(Sum(xs[..n]), xs[n])
  }

  /** The mean of a buffer: NaN when it is empty or holds a NaN. */
  function Mean(xs: seq<Float>): (r: Float)
    ensures r.Some? <==> |xs| > 0 && AllNumbers(xs)
    ensures |xs| == 0 ==> r == NaN
  {
    if |xs| == 0 then NaN
    else match Sum(xs)
      case None => NaN
      case Some(s) => Some(s / |xs| as real)
  }

  /** Shifting every entry by `c` shifts the total by `|xs| * c`. */
  lemma {:induction false} SumShift(xs: seq<Float>, ys: seq<Float>, c: real)
    requires |ys| == |xs|
    requires forall i :: 0 <= i < |xs| ==> ys[i] == Add(xs[i], Some(c))
    ensures Sum(ys).Some? <==> Sum(xs).Some?
    ensures Sum(ys).Some? ==> Sum(ys).value == Sum(xs).value + |xs| as real * c
  {
    if xs != [] {
      var n := |xs| - 1;
      SumShift(xs[..n], ys[..n], c);
      assert Sum(ys) == Add(Sum(ys[..n]), ys[n]);
      assert Sum(xs) == Add(Sum(xs[..n]), xs[n]);
      if Sum(xs[..n]).Some? && xs[n].Some? {
        calc {
          Sum(ys).value;
          (Sum(xs[..n]).value + n as real * c) + (xs[n].value + c);
          (Sum(xs[..n]).value + xs[n].value) + (n + 1) as real * c;
        }
      }
    }
  }

  /** A constant offset commutes with averaging: the mean of `x + c` is the mean
      of `x`, plus `c`; a NaN anywhere makes both sides NaN. */
  lemma MeanShift(xs: seq<Float>, ys: seq<Float>, c: real)
    requires |ys| == |xs|
    requires forall i :: 0 <= i < |xs| ==> ys[i] == Add(xs[i], Some(c))
    ensures Mean(ys) == Add(Mean(xs), Some(c))
  {
    SumShift(xs, ys, c);
    if |xs| > 0 && AllNumbers(xs) {
      var n := |xs| as real;
      var s := Sum(xs).value;
      assert Sum(ys).value == s + n * c;
      assert Mean(xs) == Some(Sum(xs).value / n);
      assert Mean(ys) == Some(Sum(ys).value / n);
      assert (s + n * c) / n == s / n + c;
    }
  }

  /** The total of `n` copies of a number. */
  lemma {:induction false} SumConstant(xs: seq<Float>, v: real)
    requires forall i :: 0 <= i < |xs| ==> xs[i] == Some(v)
    ensures Sum(xs).Some? && Sum(xs).value == |xs| as real * v
  {
    if xs != [] {
      var n := |xs| - 1;
      SumConstant(xs[..n], v);
      assert Sum(xs) == Add(Sum(xs[..n]), xs[n]);
      assert n as real * v + v == (n + 1) as real * v;
    }
  }

  /** A window in which every entry reads `v` averages to `v`. */
  lemma MeanConstant(xs: seq<Float>, v: real)
    requires |xs| > 0
    requires forall i :: 0 <= i < |xs| ==> xs[i] == Some(v)
    ensures Mean(xs) == Some(v)
  {
    SumConstant(xs, v);
    var n := |xs| as real;
    assert Sum(xs).value == n * v;
    assert Mean(xs) == Some(Sum(xs).value / n);
    assert (n * v) / n == v;
  }

  /** Totals of entries that all lie in `[lo, hi]`. */
  lemma {:induction false} SumBounds(xs: seq<Float>, lo: real, hi: real)
    requires forall i :: 0 <= i < |xs| ==> xs[i].Some? && lo <= xs[i].value <= hi
    ensures Sum(xs).Some?
    ensures |xs| as real * lo <= Sum(xs).value <= |xs| as real * hi
  {
    if xs != [] {
      var n := |xs| - 1;
      SumBounds(xs[..n], lo, hi);
    }
  }

  /** The mean lies between the smallest and the largest entry. */
  lemma MeanBounds(xs: seq<Float>, lo: real, hi: real)
    requires |xs| > 0
    requires forall i :: 0 <= i < |xs| ==> xs[i].Some? && lo <= xs[i].value <= hi
    ensures Mean(xs).Some? && lo <= Mean(xs).value <= hi
  {
    SumBounds(xs, lo, hi);
    DivideBounds(Sum(xs).value, |xs| as real, lo, hi);
  }

  lemma DivideBounds(s: real, n: real, lo: real, hi: real)
    requires n > 0.0 && n * lo <= s <= n * hi
    ensures lo <= s / n <= hi
  {
    var q := s / n;
    assert q * n == s;
    assert (q - lo) * n == s - n * lo;
    assert (hi - q) * n == n * hi - s;
  }

  /** The three means written per channel per window. */
  datatype Averages = Averages(resi: Float, temp: Float, corr: Float)

  function Resistances(s: seq<Sample>): (r: seq<Float>)
    ensures |r| == |s| && forall i :: 0 <= i < |s| ==> r[i] == s[i].resi
  {
    seq(|s|, i requires 0 <= i < |s| => s[i].resi)
  }

  function Temperatures(s: seq<Sample>): (r: seq<Float>)
    ensures |r| == |s| && forall i :: 0 <= i < |s| ==> r[i] == s[i].temp
  {
    seq(|s|, i requires 0 <= i < |s| => s[i].temp)
  }

  function Corrected(s: seq<Sample>): (r: seq<Float>)
    ensures |r| == |s| && forall i :: 0 <= i < |s| ==> r[i] == s[i].corr
  {
    seq(|s|, i requires 0 <= i < |s| => s[i].corr)
  }

  /** The per-field means of one channel's buffer. */
  function Aggregate(samples: seq<Sample>): (a: Averages)
    ensures samples == [] ==> a == Averages(NaN, NaN, NaN)
    ensures a.resi.Some? <==> samples != [] && forall i :: 0 <= i < |samples| ==> samples[i].resi.Some?
    ensures a.temp.Some? <==> samples != [] && forall i :: 0 <= i < |samples| ==> samples[i].temp.Some?
    ensures a.corr.Some? <==> samples != [] && forall i :: 0 <= i < |samples| ==> samples[i].corr.Some?
  {
    Averages(Mean(Resistances(samples)), Mean(Temperatures(samples)), Mean(Corrected(samples)))
  }

  /** A buffer holding one sample, repeated, averages to that sample. */
  lemma AggregateConstant(samples: seq<Sample>, s: Sample)
    requires |samples| > 0 && s.resi.Some? && s.temp.Some? && s.corr.Some?
    requires forall i :: 0 <= i < |samples| ==> samples[i] == s
    ensures Aggregate(samples) == Averages(s.resi, s.temp, s.corr)
  {
    MeanConstant(Resistances(samples), s.resi.value);
    MeanConstant(Temperatures(samples), s.temp.value);
    MeanConstant(Corrected(samples), s.corr.value);
  }

  /** When every sample was corrected by the same offset, the mean corrected
      temperature is the mean raw temperature plus that offset. */
  lemma AggregateCorrected(samples: seq<Sample>, offset: real)
    requires forall i :: 0 <= i < |samples| ==> samples[i].corr == Add(samples[i].temp, Some(offset))
    ensures Aggregate(samples).corr == Add(Aggregate(samples).temp, Some(offset))
  {
    MeanShift(Temperatures(samples), Corrected(samples), offset);
  }
}
