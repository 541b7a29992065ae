/**
 * The accumulator of the count-and-total date histogram: how a timestamp
 * becomes a bucket key, how one observation updates the two hash maps
 * (`counts` and `totals`), and what the maps hold after a run of
 * observations, stated against an independent per-key definition.
 */
module DateHistogram {

  /** A Java `long`. */
  type Long = x: int | -0x8000_0000_0000_0000 <= x < 0x8000_0000_0000_0000

  /**
   * The interval bucketing function `CountDateHistogramFacetCollector.bucket(millis, interval)`.
   * It is not part of this model, so it is taken as a parameter; all that is assumed of it is
   * that it is a total function from two longs to a long (it never throws, for any interval).
   */
  type BucketFn = (Long, Long) -> Long

  /** A value script bound to a segment (reader) and a document: `(reader, doc) -> value`. */
  type Script = (int, int) -> real

  /** Which processor the collector uses: raw millis as keys, or interval buckets. */
  datatype Policy = Identity | Interval(interval: Long)

  /** The choice the collector's constructor makes from the configured interval. */
  function ChoosePolicy(interval: Long): (p: Policy)
    ensures p.Identity? <==> interval == 1
    ensures p.Interval? ==> p.interval == interval
  {
    if interval == 1 then Identity else Interval(interval)
  }

  /** The bucket key an observed timestamp is counted under. */
  function Key(policy: Policy, bucket: BucketFn, millis: Long): (r: Long)
    ensures policy.Identity? ==> r == millis
    ensures policy.Interval? ==> r == bucket(millis, policy.interval)
  {
    match policy
    case Identity => millis
    case Interval(interval) => bucket(millis, interval)
  }

  /** Interval 1 keys by the raw millis; every other interval keys by `bucket(millis, interval)`. */
  lemma ChosenKey(interval: Long, bucket: BucketFn, millis: Long)
    ensures interval == 1 ==> Key(ChoosePolicy(interval), bucket, millis) == millis
    ensures interval != 1 ==> Key(ChoosePolicy(interval), bucket, millis) == bucket(millis, interval)
  {
  }

  /** `TLongLongHashMap.adjustOrPutValue(key, adjust, put)`. */
  function AdjustOrPutLong(m: map<Long, int>, key: Long, adjust: int, put: int): (r: map<Long, int>)
    ensures r.Keys == m.Keys + {key}
    ensures key in m ==> r[key] == m[key] + adjust
    ensures key !in m ==> r[key] == put
    ensures forall k :: k in m && k != key ==> r[k] == m[k]
  {
    if key in m then m[key := m[key] + adjust] else m[key := put]
  }

  /** `TLongDoubleHashMap.adjustOrPutValue(key, adjust, put)`, with an exact sum for the double addition. */
  function AdjustOrPutDouble(m: map<Long, real>, key: Long, adjust: real, put: real): (r: map<Long, real>)
    ensures r.Keys == m.Keys + {key}
    ensures key in m ==> r[key] == m[key] + adjust
    ensures key !in m ==> r[key] == put
    ensures forall k :: k in m && k != key ==> r[k] == m[k]
  {
    if key in m then m[key := m[key] + adjust] else m[key := put]
  }

  /** One call of `onValue`: the bucket key it computed and the script value it read. */
  datatype Observation = Observation(key: Long, value: real)

  /** The bucket keys of a run of observations. */
  function ObservedKeys(obs: seq<Observation>): set<Long>
  {
    set o | o in obs :: o.key
  }

  lemma ObservedKeysSnoc(obs: seq<Observation>)
    requires obs != []
    ensures ObservedKeys(obs) == ObservedKeys(obs[..|obs| - 1]) + {obs[|obs| - 1].key}
  {
    assert obs == obs[..|obs| - 1] + [obs[|obs| - 1]];
  }

  /** The `counts` map after the observations, in order, starting from `m`. */
  function AddCounts(m: map<Long, int>, obs: seq<Observation>): (r: map<Long, int>)
    ensures r.Keys == m.Keys + ObservedKeys(obs)
  {
    if obs == [] then m
    else
      ObservedKeysSnoc(obs);
      AdjustOrPutLong(AddCounts(m, obs[..|obs| - 1]), obs[|obs| - 1].key, 1, 1)
  }

  /** The `totals` map after the observations, in order, starting from `t`. */
  function AddTotals(t: map<Long, real>, obs: seq<Observation>): (r: map<Long, real>)
    ensures r.Keys == t.Keys + ObservedKeys(obs)
  {
    if obs == [] then t
    else
      var last := obs[|obs| - 1];
      ObservedKeysSnoc(obs);
      AdjustOrPutDouble(AddTotals(t, obs[..|obs| - 1]), last.key, last.value, last.value)
  }

  /** Extending a prefix of the observations by one applies one more adjust-or-put to each map. */
  lemma AddStep(m: map<Long, int>, t: map<Long, real>, obs: seq<Observation>, i: nat)
    requires i < |obs|
    ensures AddCounts(m, obs[..i + 1]) == AdjustOrPutLong(AddCounts(m, obs[..i]), obs[i].key, 1, 1)
    ensures AddTotals(t, obs[..i + 1]) == AdjustOrPutDouble(AddTotals(t, obs[..i]), obs[i].key, obs[i].value, obs[i].value)
  {
    assert obs[..i + 1][..i] == obs[..i];
  }

  /** The observations `onValue` makes for the values of one document, in value order. */
  function DocObservations(policy: Policy, bucket: BucketFn, script: Script, reader: int, doc: int,
                           values: seq<Long>): (r: seq<Observation>)
    ensures |r| == |values|
    ensures forall i :: 0 <= i < |values| ==>
              r[i].key == Key(policy, bucket, values[i]) && r[i].value == script(reader, doc)
  {
    seq(|values|, i requires 0 <= i < |values| => Observation(Key(policy, bucket, values[i]), script(reader, doc)))
  }

  /** Reference definition: how many observations fall in bucket `k`. */
  function Occurrences(obs: seq<Observation>, k: Long): nat
  {
    if obs == [] then 0
    else Occurrences(obs[..|obs| - 1], k) + (if obs[|obs| - 1].key == k then 1 else 0)
  }

  /** Reference definition: the sum of the script values observed in bucket `k`. */
  function SumFor(obs: seq<Observation>, k: Long): real
  {
    if obs == [] then 0.0
    else SumFor(obs[..|obs| - 1], k) + (if obs[|obs| - 1].key == k then obs[|obs| - 1].value else 0.0)
  }

  /**
   * Each bucket's count is its earlier count plus the number of observations in it;
   * a bucket exists exactly when it existed before or was observed.
   */
  lemma {:induction false} AddCountsPerKey(m: map<Long, int>, obs: seq<Observation>, k: Long)
    ensures k in AddCounts(m, obs) <==> k in m || Occurrences(obs, k) > 0
    ensures k in AddCounts(m, obs) ==>
              AddCounts(m, obs)[k] == (if k in m then m[k] else 0) + Occurrences(obs, k)
  {
    if obs != [] {
      AddCountsPerKey(m, obs[..|obs| - 1], k);
    }
  }

  /**
   * Each bucket's total is its earlier total plus the sum of the script values observed in it;
   * a bucket exists exactly when it existed before or was observed.
   */
  lemma {:induction false} AddTotalsPerKey(t: map<Long, real>, obs: seq<Observation>, k: Long)
    ensures k in AddTotals(t, obs) <==> k in t || Occurrences(obs, k) > 0
    ensures k in AddTotals(t, obs) ==>
              AddTotals(t, obs)[k] == (if k in t then t[k] else 0.0) + SumFor(obs, k)
  {
    if obs != [] {
      var init, last := obs[..|obs| - 1], obs[|obs| - 1];
      AddTotalsPerKey(t, init, k);
      var before := if k in t then t[k] else 0.0;
      if last.key == k && k !in AddTotals(t, init) {
        SumForUnobserved(init, k);
      } else if last.key == k {
        calc {
          AddTotals(t, obs)[k];
          AddTotals(t, init)[k] + last.value;
          before + SumFor(init, k) + last.value;
          before + SumFor(obs, k);
        }
      }
    }
  }

  /** A bucket that was never observed has summed nothing. */
  lemma {:induction false} SumForUnobserved(obs: seq<Observation>, k: Long)
    requires Occurrences(obs, k) == 0
    ensures SumFor(obs, k) == 0.0
  {
    if obs != [] {
      SumForUnobserved(obs[..|obs| - 1], k);
    }
  }

  /**
   * `counts` and `totals` are updated under the same keys, so they keep identical key sets
   * (a corollary of the key sets `AddCounts` and `AddTotals` promise).
   */
  lemma SameKeys(m: map<Long, int>, t: map<Long, real>, obs: seq<Observation>)
    requires m.Keys == t.Keys
    ensures AddCounts(m, obs).Keys == AddTotals(t, obs).Keys
  {
  }

  /** Observations only ever raise counts, and every count is at least one. */
  lemma {:induction false} CountsPositive(m: map<Long, int>, obs: seq<Observation>)
    ensures forall k :: k in AddCounts(m, obs) ==> AddCounts(m, obs)[k] >= (if k in m then m[k] else 1)
  {
    if obs != [] {
      var init := obs[..|obs| - 1];
      CountsPositive(m, init);
      forall k | k in AddCounts(m, obs)
        ensures AddCounts(m, obs)[k] >= (if k in m then m[k] else 1)
      {
        AddCountsPerKey(m, init, k);
        if k in AddCounts(m, init) {
          assert AddCounts(m, obs)[k] >= AddCounts(m, init)[k];
        }
      }
    }
  }

  /** Starting from empty maps, N observations of one key give count N and the sum of their values. */
  lemma SingleBucket(obs: seq<Observation>, k: Long)
    requires obs != []
    requires forall i :: 0 <= i < |obs| ==> obs[i].key == k
    ensures AddCounts(map[], obs) == map[k := |obs|]
    ensures AddTotals(map[], obs) == map[k := SumFor(obs, k)]
  {
    var c, t := AddCounts(map[], obs), AddTotals(map[], obs);
    AddCountsPerKey(map[], obs, k);
    AddTotalsPerKey(map[], obs, k);
    OccurrencesAllSame(obs, k);
    forall j | j != k
      ensures j !in c && j !in t
    {
      AddCountsPerKey(map[], obs, j);
      AddTotalsPerKey(map[], obs, j);
      OccurrencesNone(obs, j);
    }
  }

  lemma {:induction false} OccurrencesAllSame(obs: seq<Observation>, k: Long)
    requires forall i :: 0 <= i < |obs| ==> obs[i].key == k
    ensures Occurrences(obs, k) == |obs|
  {
    if obs != [] {
      OccurrencesAllSame(obs[..|obs| - 1], k);
    }
  }

  lemma {:induction false} OccurrencesNone(obs: seq<Observation>, j: Long)
    requires forall i :: 0 <= i < |obs| ==> obs[i].key != j
    ensures Occurrences(obs, j) == 0
  {
    if obs != [] {
      OccurrencesNone(obs[..|obs| - 1], j);
    }
  }

  /** Some key of a non-empty map. */
  ghost function PickKey(m: map<Long, int>): (k: Long)
    requires m != map[]
    ensures k in m
  {
    var k :| k in m; k
  }

  /** The sum of all counts in a map. */
  ghost function SumValues(m: map<Long, int>): int
    decreases m.Keys
  {
    if m == map[] then 0
    else
      var k := PickKey(m);
      m[k] + SumValues(m - {k})
  }

  /** The sum of a map's values splits off any one of its entries. */
  lemma {:induction false} SumValuesRemove(m: map<Long, int>, k: Long)
    requires k in m
    ensures SumValues(m) == m[k] + SumValues(m - {k})
    decreases m.Keys
  {
    var j := PickKey(m);
    if j != k {
      SumValuesRemove(m - {j}, k);
      SumValuesRemove(m - {k}, j);
      assert m - {j} - {k} == m - {k} - {j};
    }
  }

  /** Adjusting-or-putting the same amount `a` raises the sum of all values by exactly `a`. */
  lemma SumValuesAdjust(m: map<Long, int>, key: Long, a: int)
    ensures SumValues(AdjustOrPutLong(m, key, a, a)) == SumValues(m) + a
  {
    var r := AdjustOrPutLong(m, key, a, a);
    SumValuesRemove(r, key);
    assert r - {key} == m - {key};
    if key in m {
      SumValuesRemove(m, key);
    } else {
      assert m - {key} == m;
    }
  }

  /** Every observation adds exactly one to the sum of all counts: n observations add n. */
  lemma {:induction false} AddCountsTotal(m: map<Long, int>, obs: seq<Observation>)
    ensures SumValues(AddCounts(m, obs)) == SumValues(m) + |obs|
  {
    if obs != [] {
      AddCountsTotal(m, obs[..|obs| - 1]);
      SumValuesAdjust(AddCounts(m, obs[..|obs| - 1]), obs[|obs| - 1].key, 1);
    }
  }

  /** The positions of a document's values whose bucket key is `k`. */
  function ValuesIn(policy: Policy, bucket: BucketFn, values: seq<Long>, k: Long): set<nat>
  {
    set i: nat | i < |values| && Key(policy, bucket, values[i]) == k
  }

  /**
   * A document's values are all observed, none merged away: bucket `k` receives one
   * observation per value whose key is `k`, each carrying the document's script value.
   */
  lemma {:induction false} DocOccurrences(policy: Policy, bucket: BucketFn, script: Script, reader: int, doc: int,
                                          values: seq<Long>, k: Long)
    ensures |DocObservations(policy, bucket, script, reader, doc, values)| == |values|
    ensures Occurrences(DocObservations(policy, bucket, script, reader, doc, values), k)
            == |ValuesIn(policy, bucket, values, k)|
    ensures SumFor(DocObservations(policy, bucket, script, reader, doc, values), k)
            == |ValuesIn(policy, bucket, values, k)| as real * script(reader, doc)
  {
    var obs := DocObservations(policy, bucket, script, reader, doc, values);
    if values != [] {
      var n := |values| - 1;
      var init := values[..n];
      DocOccurrences(policy, bucket, script, reader, doc, init, k);
      assert obs[..n] == DocObservations(policy, bucket, script, reader, doc, init);
      ValuesInSnoc(policy, bucket, values, k);
      var a, v := |ValuesIn(policy, bucket, init, k)| as real, script(reader, doc);
      assert (a + 1.0) * v == a * v + v;
    }
  }

  /** Appending a value adds its position to `ValuesIn` exactly when its key is `k`. */
  lemma ValuesInSnoc(policy: Policy, bucket: BucketFn, values: seq<Long>, k: Long)
    requires values != []
    ensures var n := |values| - 1;
            |ValuesIn(policy, bucket, values, k)|
            == |ValuesIn(policy, bucket, values[..n], k)| + (if Key(policy, bucket, values[n]) == k then 1 else 0)
  {
    var n := |values| - 1;
    var init := values[..n];
    var s, s' := ValuesIn(policy, bucket, init, k), ValuesIn(policy, bucket, values, k);
    var extra: set<nat> := if Key(policy, bucket, values[n]) == k then {n} else {};
    forall i: nat
      ensures i in s' <==> i in s + extra
    {
      if i < n {
        assert init[i] == values[i];
      }
    }
    assert s' == s + extra;
    assert n !in s;
  }

  /**
   * Collecting one document: bucket `k` gains one count per value of the document keyed `k`,
   * and that many times the document's script value in its total; it exists afterwards
   * exactly when it existed before or one of the values is keyed `k`.
   */
  lemma CollectDocPerKey(counts: map<Long, int>, totals: map<Long, real>, policy: Policy, bucket: BucketFn,
                         script: Script, reader: int, doc: int, values: seq<Long>, k: Long)
    requires counts.Keys == totals.Keys
    ensures var obs := DocObservations(policy, bucket, script, reader, doc, values);
            var n := |ValuesIn(policy, bucket, values, k)|;
            && (k in AddCounts(counts, obs) <==> k in counts || n > 0)
            && (k in AddCounts(counts, obs) <==> k in AddTotals(totals, obs))
            && (k in AddCounts(counts, obs) ==>
                  && AddCounts(counts, obs)[k] == (if k in counts then counts[k] else 0) + n
                  && AddTotals(totals, obs)[k] == (if k in totals then totals[k] else 0.0) + n as real * script(reader, doc))
  {
    var obs := DocObservations(policy, bucket, script, reader, doc, values);
    DocOccurrences(policy, bucket, script, reader, doc, values, k);
    AddCountsPerKey(counts, obs, k);
    AddTotalsPerKey(totals, obs, k);
  }
}
