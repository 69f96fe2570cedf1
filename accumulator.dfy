/** The per-channel window accumulator shared by the averaging loggers: a
    dictionary from channel key to the list of samples taken in the current
    window, filled by one append per channel per tick and reset per window. */
module Accumulator {
  import opened Common

  type Buffers<K> = map<K, seq<Sample>>

  predicate Distinct<K(==)>(keys: seq<K>)
  {
    forall i, j :: 0 <= i < j < |keys| ==> keys[i] != keys[j]
  }

  predicate Covers<K(==)>(acc: Buffers<K>, keys: seq<K>)
  {
    forall i :: 0 <= i < |keys| ==> keys[i] in acc
  }

  /** `{k: [] for k in keys}`: one empty buffer per key. */
  function Fresh<K(==)>(keys: seq<K>): (acc: Buffers<K>)
    ensures acc.Keys == set k | k in keys
    ensures forall k :: k in acc ==> acc[k] == []
    ensures Covers(acc, keys)
  {
    map k | k in keys :: []
  }

  /** One sampling tick: `acc[keys[i]].append(samples[i])` for each i in turn. */
  function Push<K(==)>(acc: Buffers<K>, keys: seq<K>, samples: seq<Sample>): (r: Buffers<K>)
    requires |samples| == |keys| && Covers(acc, keys)
    ensures r.Keys == acc.Keys
    decreases |keys|
  {
    if keys == [] then acc
    else
      var n := |keys| - 1;
      var p := Push(acc, keys[..n], samples[..n]);
      p[keys[n] := p[keys[n]] + [samples[n]]]
  }

  /** The loop form of `Push`: handling one more key appends its sample. */
  lemma PushPrefix<K>(acc: Buffers<K>, keys: seq<K>, samples: seq<Sample>, i: nat)
    requires |samples| == |keys| && Covers(acc, keys) && i < |keys|
    ensures keys[i] in Push(acc, keys[..i], samples[..i])
    ensures Push(acc, keys[..i + 1], samples[..i + 1])
            == Push(acc, keys[..i], samples[..i])[keys[i] := Push(acc, keys[..i], samples[..i])[keys[i]] + [samples[i]]]
  {
    assert keys[..i + 1][..i] == keys[..i] && samples[..i + 1][..i] == samples[..i];
  }

  /** A tick appends exactly `samples[i]` to the buffer of `keys[i]` and leaves
      the buffers of keys outside `keys` alone. */
  lemma {:induction false} PushAppends<K>(acc: Buffers<K>, keys: seq<K>, samples: seq<Sample>)
    requires |samples| == |keys| && Covers(acc, keys) && Distinct(keys)
    ensures forall i :: 0 <= i < |keys| ==>
              Push(acc, keys, samples)[keys[i]] == acc[keys[i]] + [samples[i]]
    ensures forall k :: k in acc && k !in keys ==> Push(acc, keys, samples)[k] == acc[k]
  {
    if keys != [] {
      var n := |keys| - 1;
      assert Distinct(keys[..n]);
      PushAppends(acc, keys[..n], samples[..n]);
      var p := Push(acc, keys[..n], samples[..n]);
      var r := Push(acc, keys, samples);
      assert r == p[keys[n] := p[keys[n]] + [samples[n]]];
      assert keys[n] !in keys[..n] by {
        forall i | 0 <= i < n ensures keys[..n][i] != keys[n] { }
      }
      forall i | 0 <= i < n
        ensures r[keys[i]] == acc[keys[i]] + [samples[i]]
      {
        assert keys[..n][i] == keys[i] && keys[i] != keys[n];
        assert samples[..n][i] == samples[i];
      }
      forall k | k in acc && k !in keys
        ensures r[k] == acc[k]
      {
        assert k !in keys[..n];
      }
    }
  }

  /** The `t`-th tick's sample of the `i`-th key, for every tick. */
  function Column(ticks: seq<seq<Sample>>, i: nat): (col: seq<Sample>)
    requires forall t :: 0 <= t < |ticks| ==> i < |ticks[t]|
    ensures |col| == |ticks| && forall t :: 0 <= t < |ticks| ==> col[t] == ticks[t][i]
  {
    seq(|ticks|, t requires 0 <= t < |ticks| => ticks[t][i])
  }

  predicate Shaped<K>(ticks: seq<seq<Sample>>, keys: seq<K>)
  {
    forall t :: 0 <= t < |ticks| ==> |ticks[t]| == |keys|
  }

  /** The accumulator after running `ticks` in order. */
  function Collect<K(==)>(acc: Buffers<K>, keys: seq<K>, ticks: seq<seq<Sample>>): (r: Buffers<K>)
    requires Shaped(ticks, keys) && Covers(acc, keys)
    ensures r.Keys == acc.Keys
    decreases |ticks|
  {
    if ticks == [] then acc
    else
      var n := |ticks| - 1;
      Push(Collect(acc, keys, ticks[..n]), keys, ticks[n])
  }

  /** The loop form of `Collect`: running one more tick pushes its samples. */
  lemma CollectPrefix<K>(acc: Buffers<K>, keys: seq<K>, ticks: seq<seq<Sample>>, t: nat)
    requires Shaped(ticks, keys) && Covers(acc, keys) && t < |ticks|
    ensures Covers(Collect(acc, keys, ticks[..t]), keys)
    ensures Collect(acc, keys, ticks[..t + 1]) == Push(Collect(acc, keys, ticks[..t]), keys, ticks[t])
  {
    assert ticks[..t + 1][..t] == ticks[..t];
  }

  /** After a run of ticks each key's buffer has grown by exactly one sample per
      tick, in tick order. */
  lemma {:induction false} CollectColumn<K>(acc: Buffers<K>, keys: seq<K>, ticks: seq<seq<Sample>>)
    requires Shaped(ticks, keys) && Covers(acc, keys) && Distinct(keys)
    ensures forall i :: 0 <= i < |keys| ==>
              Collect(acc, keys, ticks)[keys[i]] == acc[keys[i]] + Column(ticks, i)
  {
    if ticks != [] {
      var n := |ticks| - 1;
      var before := Collect(acc, keys, ticks[..n]);
      CollectColumn(acc, keys, ticks[..n]);
      PushAppends(before, keys, ticks[n]);
      forall i | 0 <= i < |keys|
        ensures Collect(acc, keys, ticks)[keys[i]] == acc[keys[i]] + Column(ticks, i)
      {
        assert Column(ticks, i) == Column(ticks[..n], i) + [ticks[n][i]];
      }
    }
  }

  /** Starting from fresh buffers, after `N` ticks every buffer holds exactly the
      `N` samples taken for its key. */
  lemma FreshCollect<K>(keys: seq<K>, ticks: seq<seq<Sample>>)
    requires Shaped(ticks, keys) && Distinct(keys)
    ensures forall i :: 0 <= i < |keys| ==>
              Collect(Fresh(keys), keys, ticks)[keys[i]] == Column(ticks, i)
    ensures forall i :: 0 <= i < |keys| ==> |Collect(Fresh(keys), keys, ticks)[keys[i]]| == |ticks|
  {
    CollectColumn(Fresh(keys), keys, ticks);
    forall i | 0 <= i < |keys| ensures Fresh(keys)[keys[i]] == [] { }
  }

  /** The accumulator after a run of ticks from fresh buffers is the map that
      sends each key to its column of samples. */
  lemma FreshCollectIs<K>(keys: seq<K>, ticks: seq<seq<Sample>>, want: Buffers<K>)
    requires Shaped(ticks, keys) && Distinct(keys)
    requires forall k :: k in want <==> k in keys
    requires forall i :: 0 <= i < |keys| ==> want[keys[i]] == Column(ticks, i)
    ensures Collect(Fresh(keys), keys, ticks) == want
  {
    var acc := Collect(Fresh(keys), keys, ticks);
    FreshCollect(keys, ticks);
    assert acc.Keys == want.Keys;
    forall k | k in acc
      ensures acc[k] == want[k]
    {
      var i :| 0 <= i < |keys| && keys[i] == k;
    }
  }

  /** Distinct keys give a dictionary of exactly that many entries. */
  lemma {:induction false} DistinctCount<K>(keys: seq<K>)
    requires Distinct(keys)
    ensures |Fresh(keys).Keys| == |keys|
  {
    if keys != [] {
      var n := |keys| - 1;
      DistinctCount(keys[..n]);
      assert Fresh(keys).Keys == Fresh(keys[..n]).Keys + {keys[n]};
      assert keys[n] !in Fresh(keys[..n]).Keys by {
        forall i | 0 <= i < n ensures keys[..n][i] != keys[n] { }
      }
    } else {
      assert Fresh(keys).Keys == {};
    }
  }
}
