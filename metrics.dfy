/**
 The per-thread batching buffer of src/metrics.rs.

 A `Snapshot` is a mutable map from `MetricKey` to `MetricValue`; the
 `RefCell` around it becomes a plain field that the methods reassign.
 `MetricsContext` counts increments, records each into its snapshot and, on
 every 50 000th call, sends a copy of the snapshot down its channel and zeroes
 the live values in place.  The channel is an append-only outbox.
 */
module Metrics {

  /** The number of increments between two flushes. */
  const FLUSH_EVERY: nat := 50000

  /** `MetricKey` is a unit struct: every metric shares the single key. */
  datatype MetricKey = MetricKey

  /** `MetricValue(u64)`; `Default` is `MetricValue(0)`. */
  datatype MetricValue = MetricValue(v: nat)

  type Values = map<MetricKey, MetricValue>

  /** `MetricValue::default()`. */
  function Zero(): MetricValue
  {
    MetricValue(0)
  }

  /** `impl Add for MetricValue`; `add_assign` is `x = Add(x, rhs)`. */
  function Add(a: MetricValue, b: MetricValue): (r: MetricValue)
    ensures r.v == a.v + b.v
  {
    MetricValue(a.v + b.v)
  }

  lemma AddCommutes(a: MetricValue, b: MetricValue)
    ensures Add(a, b) == Add(b, a)
  {
  }

  lemma AddZero(a: MetricValue)
    ensures Add(a, Zero()) == a && Add(Zero(), a) == a
  {
  }

  /** `Counter(name, n)`, the one implementation of `Metric`. */
  datatype Counter = Counter(name: string, n: nat)

  /** `Counter::into_metric`: the name is dropped, the value becomes the metric value. */
  function IntoMetric(c: Counter): (r: (MetricKey, MetricValue))
    ensures r.1.v == c.n
  {
    (MetricKey, MetricValue(c.n))
  }

  /** All counters with the same count land in the same entry with the same value, whatever their names. */
  lemma IntoMetricIgnoresName(c1: Counter, c2: Counter)
    ensures IntoMetric(c1) == IntoMetric(c2) <==> c1.n == c2.n
  {
  }

  // ---------------------------------------------------------------------------
  // Specification of the snapshot operations on map values
  // ---------------------------------------------------------------------------

  /** The value stored under `k`, or the default when absent (`or_insert_with(default)`). */
  function ValueOf(m: Values, k: MetricKey): MetricValue
  {
    if k in m then m[k] else Zero()
  }

  /** The map after `increment`: `entry(key).or_insert_with(default) += value`. */
  function Incremented(m: Values, metric: (MetricKey, MetricValue)): Values
  {
    m[metric.0 := Add(ValueOf(m, metric.0), metric.1)]
  }

  /** The map after `clear`: the same keys, every value the default. */
  function Cleared(m: Values): Values
  {
    map k | k in m :: Zero()
  }

  /** The map after `merge(other)`: every key of either side, values summed. */
  function MergedValues(m: Values, o: Values): Values
  {
    map k | k in m.Keys + o.Keys :: Add(ValueOf(m, k), ValueOf(o, k))
  }

  /** `merge` after the keys in `done` of `o` have been folded in. */
  function PartlyMerged(m: Values, o: Values, done: set<MetricKey>): Values
    requires done <= o.Keys
  {
    map k | k in m.Keys + done :: if k in done then Add(ValueOf(m, k), o[k]) else m[k]
  }

  /** Sum of the live values (there is one key, so at most one value). */
  function Total(m: Values): nat
  {
    ValueOf(m, MetricKey).v
  }

  /** Sum of the values of every snapshot in the outbox. */
  function TotalSent(sent: seq<Values>): nat
    decreases |sent|
  {
    if sent == [] then 0 else TotalSent(sent[..|sent| - 1]) + Total(sent[|sent| - 1])
  }

  // ---------------------------------------------------------------------------
  // Lemmas about the specification
  // ---------------------------------------------------------------------------

  /**
   `increment` creates the key at 0 if needed and adds the value there.  There
   is only one `MetricKey`, so there is no other key to leave alone.
   */
  lemma IncrementedMeaning(m: Values, metric: (MetricKey, MetricValue))
    ensures Incremented(m, metric).Keys == m.Keys + {metric.0}
    ensures Incremented(m, metric)[metric.0].v == (if metric.0 in m then m[metric.0].v else 0) + metric.1.v
  {
  }

  /** Incrementing is merging a one-entry map. */
  lemma IncrementIsMerge(m: Values, metric: (MetricKey, MetricValue))
    ensures Incremented(m, metric) == MergedValues(m, map[metric.0 := metric.1])
  {
    var a := Incremented(m, metric);
    var b := MergedValues(m, map[metric.0 := metric.1]);
    assert a.Keys == b.Keys;
  }

  /** `clear` keeps the key set and zeroes every value. */
  lemma ClearedMeaning(m: Values)
    ensures Cleared(m).Keys == m.Keys
    ensures forall k :: k in Cleared(m) ==> Cleared(m)[k].v == 0
    ensures Total(Cleared(m)) == 0
  {
  }

  /** `clear` is idempotent. */
  lemma ClearIdempotent(m: Values)
    ensures Cleared(Cleared(m)) == Cleared(m)
  {
  }

  /** `merge` adds `other`'s value to each of its keys and leaves the keys only in `this` alone. */
  lemma MergedMeaning(m: Values, o: Values)
    ensures MergedValues(m, o).Keys == m.Keys + o.Keys
    ensures forall k :: k in o ==> MergedValues(m, o)[k].v == ValueOf(m, k).v + o[k].v
    ensures forall k :: k in m && k !in o ==> MergedValues(m, o)[k] == m[k]
  {
    forall k | k in m && k !in o
      ensures MergedValues(m, o)[k] == m[k]
    {
      AddZero(m[k]);
    }
  }

  /** Merging every key of `o` is the whole merge. */
  lemma PartlyMergedAll(m: Values, o: Values)
    ensures PartlyMerged(m, o, o.Keys) == MergedValues(m, o)
  {
    var a := PartlyMerged(m, o, o.Keys);
    var b := MergedValues(m, o);
    assert a.Keys == b.Keys;
    forall k | k in a.Keys
      ensures a[k] == b[k]
    {
      if k !in o {
        AddZero(m[k]);
      }
    }
  }

  /** The order of two snapshots in a merge does not matter. */
  lemma MergeCommutes(m: Values, o: Values)
    ensures MergedValues(m, o) == MergedValues(o, m)
  {
    var a := MergedValues(m, o);
    var b := MergedValues(o, m);
    assert a.Keys == b.Keys;
    forall k | k in a.Keys
      ensures a[k] == b[k]
    {
      AddCommutes(ValueOf(m, k), ValueOf(o, k));
    }
  }

  /** Totals add up under merge. */
  lemma TotalMerged(m: Values, o: Values)
    ensures Total(MergedValues(m, o)) == Total(m) + Total(o)
  {
  }

  /** An increment raises the total by exactly its value. */
  lemma TotalIncremented(m: Values, metric: (MetricKey, MetricValue))
    ensures Total(Incremented(m, metric)) == Total(m) + metric.1.v
  {
    assert metric.0 == MetricKey;
  }

  /** Appending a snapshot to the outbox adds its total. */
  lemma TotalSentAppend(sent: seq<Values>, s: Values)
    ensures TotalSent(sent + [s]) == TotalSent(sent) + Total(s)
  {
    assert (sent + [s])[..|sent|] == sent;
  }

  /** The increment counter passes one more multiple of 50 000 exactly when it lands on one. */
  lemma FlushCount(n: nat)
    ensures (n + 1) / FLUSH_EVERY == n / FLUSH_EVERY + (if (n + 1) % FLUSH_EVERY == 0 then 1 else 0)
  {
    var q := n / FLUSH_EVERY;
    var r := n % FLUSH_EVERY;
    assert n == q * FLUSH_EVERY + r && 0 <= r < FLUSH_EVERY;
    if r + 1 == FLUSH_EVERY {
      assert n + 1 == (q + 1) * FLUSH_EVERY;
    } else {
      assert n + 1 == q * FLUSH_EVERY + (r + 1);
    }
  }

  // ---------------------------------------------------------------------------
  // Snapshot
  // ---------------------------------------------------------------------------

  class Snapshot {
    var values: Values

    /** `Snapshot::new`: an empty map. */
    constructor ()
      ensures values == map[]
    {
      values := map[];
    }

    /** `Snapshot::clear`: every stored value is reset to the default in place. */
    method Clear()
      modifies this
      ensures values == Cleared(old(values))
    {
      var todo := values.Keys;
      ghost var done: set<MetricKey> := {};
      while todo != {}
        invariant todo + done == old(values).Keys && todo !! done
        invariant values == map k | k in old(values) :: if k in done then Zero() else old(values)[k]
        decreases todo
      {
        var k :| k in todo;
        values := values[k := Zero()];
        todo := todo - {k};
        done := done + {k};
      }
    }

    /** `Snapshot::increment`: `entry(key).or_insert_with(default) += value`. */
    method Increment(metric: Counter)
      modifies this
      ensures values == Incremented(old(values), IntoMetric(metric))
    {
      var (key, value) := IntoMetric(metric);
      if key !in values {
        values := values[key := Zero()];
      }
      values := values[key := Add(values[key], value)];
    }

    /**
     `Snapshot::merge`: folds every entry of `other` into this map.  Both maps
     sit behind one `RefCell` each; merging a snapshot into itself would borrow
     the same cell mutably and immutably and panic, hence `other != this`.
     */
    method Merge(other: Snapshot)
      requires other != this
      modifies this
      ensures values == MergedValues(old(values), other.values)
    {
      var todo := other.values.Keys;
      ghost var done: set<MetricKey> := {};
      while todo != {}
        invariant todo + done == other.values.Keys && todo !! done
        invariant values == PartlyMerged(old(values), other.values, done)
        decreases todo
      {
        var k :| k in todo;
        if k !in values {
          values := values[k := Zero()];
        }
        values := values[k := Add(values[k], other.values[k])];
        todo := todo - {k};
        done := done + {k};
      }
      PartlyMergedAll(old(values), other.values);
    }

    /** `Snapshot::get`: indexing the map, which panics on a missing key. */
    method Get(key: MetricKey) returns (r: MetricValue)
      requires key in values
      ensures r == values[key]
    {
      r := values[key];
    }
  }

  // ---------------------------------------------------------------------------
  // The outbox and the context
  // ---------------------------------------------------------------------------

  /** The sending half of the channel: everything sent, in order. */
  class Channel {
    var sent: seq<Values>

    constructor ()
      ensures sent == []
    {
      sent := [];
    }

    /** `Sender::send`, taken to succeed. */
    method Send(s: Values)
      modifies this
      ensures sent == old(sent) + [s]
    {
      sent := sent + [s];
    }
  }

  class MetricsContext {
    var increments: nat
    const snapshot: Snapshot
    var tx: Channel?
    /** The sum of every value ever passed to `increment`. */
    ghost var recorded: nat
    /** Every snapshot ever sent, whichever channel was connected at the time. */
    ghost var flushed: seq<Values>

    /**
     One send per completed block of 50 000 increments, and nothing lost:
     what was sent plus what is still live is everything recorded.
     */
    ghost predicate Valid()
      reads this, snapshot
    {
      && |flushed| == increments / FLUSH_EVERY
      && TotalSent(flushed) + Total(snapshot.values) == recorded
    }

    /** `MetricsContext::new`: no increments, an empty snapshot, no sender. */
    constructor ()
      ensures Valid()
      ensures increments == 0 && snapshot.values == map[] && tx == null
      ensures recorded == 0 && flushed == []
      ensures fresh(snapshot)
    {
      increments := 0;
      snapshot := new Snapshot();
      tx := null;
      recorded := 0;
      flushed := [];
    }

    /** `MetricsContext::connect`: replaces any previous sender. */
    method Connect(ch: Channel)
      modifies this
      ensures tx == ch
      ensures increments == old(increments) && recorded == old(recorded) && flushed == old(flushed)
    {
      tx := ch;
    }

    /**
     `MetricsContext::increment`.  The sender is unwrapped only when this call
     completes a block of 50 000, so only then must one be connected.
     */
    method Increment(metric: Counter)
      requires Valid()
      requires (increments + 1) % FLUSH_EVERY == 0 ==> tx != null
      modifies this, snapshot, tx
      ensures Valid()
      ensures increments == old(increments) + 1
      ensures recorded == old(recorded) + metric.n
      ensures tx == old(tx)
      ensures increments % FLUSH_EVERY == 0 ==>
        && tx != null
        && tx.sent == old(tx.sent) + [Incremented(old(snapshot.values), IntoMetric(metric))]
        && flushed == old(flushed) + [Incremented(old(snapshot.values), IntoMetric(metric))]
        && snapshot.values == Cleared(Incremented(old(snapshot.values), IntoMetric(metric)))
      ensures increments % FLUSH_EVERY != 0 ==>
        && (tx != null ==> tx.sent == old(tx.sent))
        && flushed == old(flushed)
        && snapshot.values == Incremented(old(snapshot.values), IntoMetric(metric))
    {
      FlushCount(increments);
      increments := increments + 1;
      TotalIncremented(snapshot.values, IntoMetric(metric));
      snapshot.Increment(metric);
      recorded := recorded + metric.n;
      if increments % FLUSH_EVERY == 0 {
        var copy := snapshot.values;
        tx.Send(copy);
        TotalSentAppend(flushed, copy);
        flushed := flushed + [copy];
        ClearedMeaning(copy);
        snapshot.Clear();
      }
    }
  }

  /** The metric name `do_work` records under. */
  const KEY: string := "metric.1"

  /**
   The body of `do_work` on one context: connect `ch`, then record `iter`
   counters of 1.  The outbox gains one snapshot per multiple of 50 000 the
   increment count passes, exactly the snapshots the context records as
   flushed, and the total recorded grows by `iter`.
   */
  method DoWork(ctx: MetricsContext, ch: Channel, iter: nat)
    requires ctx.Valid()
    modifies ctx, ctx.snapshot, ch
    ensures ctx.Valid() && ctx.tx == ch
    ensures ctx.increments == old(ctx.increments) + iter
    ensures ctx.recorded == old(ctx.recorded) + iter
    ensures |ch.sent| == |old(ch.sent)| + ctx.increments / FLUSH_EVERY - old(ctx.increments) / FLUSH_EVERY
    ensures |ctx.flushed| >= |old(ctx.flushed)|
    ensures ch.sent == old(ch.sent) + ctx.flushed[|old(ctx.flushed)|..]
  {
    ctx.Connect(ch);
    for i := 0 to iter
      invariant ctx.Valid() && ctx.tx == ch
      invariant ctx.increments == old(ctx.increments) + i
      invariant ctx.recorded == old(ctx.recorded) + i
      invariant |ch.sent| == |old(ch.sent)| + ctx.increments / FLUSH_EVERY - old(ctx.increments) / FLUSH_EVERY
      invariant |ctx.flushed| >= |old(ctx.flushed)|
      invariant ch.sent == old(ch.sent) + ctx.flushed[|old(ctx.flushed)|..]
    {
      FlushCount(ctx.increments);
      ctx.Increment(Counter(KEY, 1));
    }
  }

  /** Right after a flush every live value is 0 and the keys are kept. */
  lemma AfterFlushAllZero(m: Values, metric: (MetricKey, MetricValue))
    ensures Cleared(Incremented(m, metric)).Keys == m.Keys + {metric.0}
    ensures forall k :: k in Cleared(Incremented(m, metric)) ==> Cleared(Incremented(m, metric))[k].v == 0
  {
  }
}
