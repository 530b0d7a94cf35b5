/** A sequence of `getRawMetric(name).setValue(value)` calls, as the collectors perform
    them: in order, each value computed just before it is stored, and an exception
    thrown while computing one ends the sequence, leaving the earlier stores in place. */
module MetricSink {
  import opened Wrappers

  /** Stores the values in order until the first one that could not be computed;
      returns the registry and the exception that ended the sequence, if any. */
  function Apply<K, V, E>(reg: map<K, V>, writes: seq<(K, Result<V, E>)>): (r: (map<K, V>, Option<E>))
    decreases |writes|
  {
    if writes == [] then (reg, None)
    else match writes[0].1
      case Err(e) => (reg, Some(e))
      case Ok(v) => Apply(reg[writes[0].0 := v], writes[1..])
  }

  /** No metric is ever removed, and the sequence ends early exactly when some value
      could not be computed. */
  lemma {:induction false} ApplyOutcome<K, V, E>(reg: map<K, V>, writes: seq<(K, Result<V, E>)>)
    ensures reg.Keys <= Apply(reg, writes).0.Keys
    ensures Apply(reg, writes).1.None? <==> forall i :: 0 <= i < |writes| ==> writes[i].1.Ok?
    decreases |writes|
  {
    if writes != [] && writes[0].1.Ok? {
      ApplyOutcome(reg[writes[0].0 := writes[0].1.value], writes[1..]);
      assert forall i :: 1 <= i < |writes| ==> writes[i] == writes[1..][i - 1];
    }
  }

  predicate Targets<K(==), V, E>(writes: seq<(K, Result<V, E>)>, k: K)
  {
    exists i :: 0 <= i < |writes| && writes[i].0 == k
  }

  predicate DistinctTargets<K(==), V, E>(writes: seq<(K, Result<V, E>)>)
  {
    forall i, j :: 0 <= i < j < |writes| ==> writes[i].0 != writes[j].0
  }

  /** A metric that no write targets keeps its value (or stays absent). */
  lemma {:induction false} ApplyLeavesOthers<K, V, E>(reg: map<K, V>, writes: seq<(K, Result<V, E>)>, k: K)
    requires !Targets(writes, k)
    ensures k in Apply(reg, writes).0 <==> k in reg
    ensures k in reg ==> Apply(reg, writes).0[k] == reg[k]
    decreases |writes|
  {
    if writes != [] && writes[0].1.Ok? {
      assert !Targets(writes[1..], k) by {
        forall i | 0 <= i < |writes[1..]| ensures writes[1..][i].0 != k {
          assert writes[1..][i] == writes[i + 1];
        }
      }
      ApplyLeavesOthers(reg[writes[0].0 := writes[0].1.value], writes[1..], k);
    }
  }

  /** The writes after the first failing one are never performed. */
  lemma {:induction false} ApplyStopsAtFailure<K, V, E>(reg: map<K, V>, writes: seq<(K, Result<V, E>)>, i: nat)
    requires i < |writes| && writes[i].1.Err?
    requires forall j :: 0 <= j < i ==> writes[j].1.Ok?
    ensures Apply(reg, writes) == (Apply(reg, writes[..i]).0, Some(writes[i].1.error))
    decreases i
  {
    if i > 0 {
      assert writes[..i][1..] == writes[1..][..i - 1];
      ApplyStopsAtFailure(reg[writes[0].0 := writes[0].1.value], writes[1..], i - 1);
    }
  }

  /** When every value is computed and each metric is written once, each metric
      ends up holding the value written to it. */
  lemma {:induction false} ApplyStoresEach<K, V, E>(reg: map<K, V>, writes: seq<(K, Result<V, E>)>, i: nat)
    requires i < |writes| && DistinctTargets(writes)
    requires forall j :: 0 <= j < |writes| ==> writes[j].1.Ok?
    ensures writes[i].0 in Apply(reg, writes).0
    ensures Apply(reg, writes).0[writes[i].0] == writes[i].1.value
    decreases i
  {
    var tail := writes[1..];
    assert forall j :: 0 <= j < |tail| ==> tail[j] == writes[j + 1];
    var reg' := reg[writes[0].0 := writes[0].1.value];
    if i == 0 {
      ApplyLeavesOthers(reg', tail, writes[0].0);
    } else {
      ApplyStoresEach(reg', tail, i - 1);
    }
  }

  /** A first value that could be computed is stored before the rest are performed. */
  lemma ApplyOk<K, V, E>(reg: map<K, V>, k: K, v: V, rest: seq<(K, Result<V, E>)>)
    ensures Apply(reg, [(k, Ok(v))] + rest) == Apply(reg[k := v], rest)
  {
    assert ([(k, Ok(v))] + rest)[1..] == rest;
  }

  /** Performing two write sequences one after the other performs their
      concatenation: the second only runs when the first completes. */
  lemma {:induction false} ApplyAppend<K, V, E>(reg: map<K, V>, first: seq<(K, Result<V, E>)>, second: seq<(K, Result<V, E>)>)
    ensures Apply(reg, first + second) ==
      if Apply(reg, first).1.Some? then Apply(reg, first) else Apply(Apply(reg, first).0, second)
    decreases |first|
  {
    if first == [] {
      assert first + second == second;
    } else {
      assert (first + second)[0] == first[0] && (first + second)[1..] == first[1..] + second;
      if first[0].1.Ok? {
        ApplyAppend(reg[first[0].0 := first[0].1.value], first[1..], second);
      }
    }
  }

  /** The metric registry of a collector: `getRawMetric(k).setValue(v)` stores `v`
      under `k`. */
  class Registry<K(==), V> {
    var metrics: map<K, V>

    constructor ()
      ensures metrics == map[]
    {
      metrics := map[];
    }

    /** Performs write `k` of `ws`: stores the value, or stores nothing when computing
        it threw. The result continues `Apply` over the writes from `k` on. */
    method SetValue<E>(key: K, value: Result<V, E>, ghost ws: seq<(K, Result<V, E>)>, ghost k: nat)
      returns (thrown: Option<E>)
      requires k < |ws| && ws[k] == (key, value)
      modifies this
      ensures value.Ok? ==> thrown == None && metrics == old(metrics)[key := value.value]
      ensures value.Err? ==> thrown == Some(value.error) && metrics == old(metrics)
      ensures thrown.None? ==> Apply(old(metrics), ws[k..]) == Apply(metrics, ws[k + 1..])
      ensures thrown.Some? ==> Apply(old(metrics), ws[k..]) == (metrics, thrown)
    {
      assert ws[k..][0] == ws[k] && ws[k..][1..] == ws[k + 1..];
      if value.Err? {
        return Some(value.error);
      }
      metrics := metrics[key := value.value];
      thrown := None;
    }
  }
}
