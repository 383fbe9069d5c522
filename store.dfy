/**
 `MetricStore` (src/dimensions.rs): a hash map from owned metric identities to
 running counts.

 The map is modelled as a sequence of entries whose names are pairwise not
 `same`. hashbrown's probe (`raw_entry_mut().from_hash(hash, eq)`) becomes a
 linear scan that first compares the entry's hash with the probe hash and then
 applies the comparator. Because equal identities make equal hash writes, the
 hash pre-filter never changes which entry is found; `FindByEq` and
 `FindBySame` prove this against the hash-free specifications `FindEq` and
 `FindSame`.
 */
module Store {
  import opened Dimensions

  /** One bucket of the map: an owned identity and its count. */
  datatype Entry = Entry(name: OwnedMetricName, count: nat)

  /** Map keys are unique under `same`. */
  ghost predicate Distinct(buf: seq<Entry>)
  {
    forall i, j :: 0 <= i < j < |buf| ==> !Same(buf[i].name, buf[j].name)
  }

  /** The first entry whose name satisfies `p`. */
  function FindFirst(buf: seq<Entry>, p: OwnedMetricName -> bool): (r: Option<nat>)
    ensures r.Some? ==> r.value < |buf| && p(buf[r.value].name)
    ensures r.Some? ==> forall j :: 0 <= j < r.value ==> !p(buf[j].name)
    ensures r.None? <==> forall j :: 0 <= j < |buf| ==> !p(buf[j].name)
    decreases |buf|
  {
    if buf == [] then None
    else
      var r := FindFirst(buf[..|buf| - 1], p);
      if r.Some? then r
      else if p(buf[|buf| - 1].name) then Some(|buf| - 1)
      else None
  }

  /** The entry a borrowed key selects: the probe with the `Eq` comparator. */
  function FindEq(buf: seq<Entry>, key: MetricName): Option<nat>
  {
    FindFirst(buf, o => Eq(o, key))
  }

  /** The entry an owned key selects: the probe with the `same` comparator. */
  function FindSame(buf: seq<Entry>, k: OwnedMetricName): Option<nat>
  {
    FindFirst(buf, o => Same(o, k))
  }

  /** The result of `get_counter`. */
  function Lookup(buf: seq<Entry>, key: MetricName): Option<nat>
  {
    match FindEq(buf, key)
    case Some(i) => Some(buf[i].count)
    case None => None
  }

  /** The count `get_counter` reports, 0 when the key is absent. */
  function Counted(buf: seq<Entry>, key: MetricName): nat
  {
    match Lookup(buf, key)
    case Some(c) => c
    case None => 0
  }

  /** The entries after `update(key, val)`: grow the equal entry, or insert the conversion of `key`. */
  function UpdatedEntries(buf: seq<Entry>, key: MetricName, val: nat): seq<Entry>
  {
    match FindEq(buf, key)
    case Some(i) => buf[i := Entry(buf[i].name, buf[i].count + val)]
    case None => buf + [Entry(CloneIntoOwned(key), val)]
  }

  /** One step of `merge`: add `e.count` to the `same` entry, or insert `e`'s key with 0 first. */
  function MergeEntry(buf: seq<Entry>, e: Entry): seq<Entry>
  {
    match FindSame(buf, e.name)
    case Some(i) => buf[i := Entry(buf[i].name, buf[i].count + e.count)]
    case None => buf + [Entry(e.name, 0 + e.count)]
  }

  /** The entries after merging every entry of `other`, in order. */
  function MergedEntries(buf: seq<Entry>, other: seq<Entry>): seq<Entry>
    decreases |other|
  {
    if other == [] then buf
    else MergeEntry(MergedEntries(buf, other[..|other| - 1]), other[|other| - 1])
  }

  /** Sum of the counts of the entries whose name satisfies `sel`. */
  function Total(buf: seq<Entry>, sel: OwnedMetricName -> bool): nat
    decreases |buf|
  {
    if buf == [] then 0
    else Total(buf[..|buf| - 1], sel) + (if sel(buf[|buf| - 1].name) then buf[|buf| - 1].count else 0)
  }

  /** Selects the identities with metric key `key`, whatever their labels. */
  function HasKey(key: string): OwnedMetricName -> bool
  {
    (o: OwnedMetricName) => o.key == key
  }

  /** Selects the identities equal to the borrowed identity `q`. */
  function EqTo(q: MetricName): OwnedMetricName -> bool
  {
    (o: OwnedMetricName) => Eq(o, q)
  }

  /** Selects the identities `same` as `n`. */
  function SameAs(n: OwnedMetricName): OwnedMetricName -> bool
  {
    (o: OwnedMetricName) => Same(o, n)
  }

  /** Sum of the counts under one metric key, over all label combinations. */
  function KeySum(buf: seq<Entry>, key: string): nat
  {
    Total(buf, HasKey(key))
  }

  /** The count kept for the `same`-class of `n` (0 when absent). */
  function SameCount(buf: seq<Entry>, n: OwnedMetricName): nat
  {
    Total(buf, SameAs(n))
  }

  ghost predicate RespectsSame(sel: OwnedMetricName -> bool)
  {
    forall a, b :: Same(a, b) ==> sel(a) == sel(b)
  }

  // ---------------------------------------------------------------------------
  // Lemmas about the specification
  // ---------------------------------------------------------------------------

  /** Under unique keys, an entry equal to `key` is the one the probe finds. */
  lemma FindEqUnique(buf: seq<Entry>, key: MetricName, i: nat)
    requires Distinct(buf)
    requires i < |buf| && Eq(buf[i].name, key)
    ensures FindEq(buf, key) == Some(i)
  {
    var j := FindEq(buf, key).value;
    if j != i {
      EqEqSame(buf[i].name, buf[j].name, key);
      SameSymmetric(buf[i].name, buf[j].name);
    }
  }

  /** Under unique keys, `Lookup` is `None` exactly when no entry equals `key`, and otherwise that entry's count. */
  lemma LookupMeaning(buf: seq<Entry>, key: MetricName)
    requires Distinct(buf)
    ensures Lookup(buf, key).None? <==> forall i :: 0 <= i < |buf| ==> !Eq(buf[i].name, key)
    ensures forall i :: 0 <= i < |buf| && Eq(buf[i].name, key) ==> Lookup(buf, key) == Some(buf[i].count)
  {
    forall i | 0 <= i < |buf| && Eq(buf[i].name, key)
      ensures Lookup(buf, key) == Some(buf[i].count)
    {
      FindEqUnique(buf, key, i);
    }
  }

  /** The probe only looks at names. */
  lemma FindFirstNamesOnly(a: seq<Entry>, b: seq<Entry>, p: OwnedMetricName -> bool)
    requires |a| == |b|
    requires forall j :: 0 <= j < |a| ==> a[j].name == b[j].name
    ensures FindFirst(a, p) == FindFirst(b, p)
  {
    var ra, rb := FindFirst(a, p), FindFirst(b, p);
    if ra.Some? && rb.Some? {
      assert !(ra.value < rb.value) && !(rb.value < ra.value);
    }
  }

  lemma FindFirstAppend(buf: seq<Entry>, e: Entry, p: OwnedMetricName -> bool)
    ensures FindFirst(buf + [e], p) ==
      if FindFirst(buf, p).Some? then FindFirst(buf, p)
      else if p(e.name) then Some(|buf|) else None
  {
    assert (buf + [e])[..|buf|] == buf;
  }

  lemma {:induction false} TotalAppend(buf: seq<Entry>, e: Entry, sel: OwnedMetricName -> bool)
    ensures Total(buf + [e], sel) == Total(buf, sel) + (if sel(e.name) then e.count else 0)
  {
    assert (buf + [e])[..|buf|] == buf;
  }

  /** Replacing the count of entry `i` changes the total by the difference, when `i` is selected. */
  lemma {:induction false} TotalReplaceCount(buf: seq<Entry>, i: nat, c: nat, sel: OwnedMetricName -> bool)
    requires i < |buf|
    ensures Total(buf[i := Entry(buf[i].name, c)], sel) + (if sel(buf[i].name) then buf[i].count else 0)
            == Total(buf, sel) + (if sel(buf[i].name) then c else 0)
  {
    var b' := buf[i := Entry(buf[i].name, c)];
    if i < |buf| - 1 {
      assert b'[..|b'| - 1] == buf[..|buf| - 1][i := Entry(buf[i].name, c)];
      TotalReplaceCount(buf[..|buf| - 1], i, c, sel);
    } else {
      assert b'[..|b'| - 1] == buf[..|buf| - 1];
    }
  }

  /** The total of a concatenation is the sum of the totals. */
  lemma {:induction false} TotalConcat(a: seq<Entry>, b: seq<Entry>, sel: OwnedMetricName -> bool)
    ensures Total(a + b, sel) == Total(a, sel) + Total(b, sel)
    decreases |b|
  {
    if b == [] {
      assert a + b == a;
    } else {
      var b', e := b[..|b| - 1], b[|b| - 1];
      assert a + b == (a + b') + [e];
      assert b == b' + [e];
      TotalConcat(a, b', sel);
      TotalAppend(a + b', e, sel);
      TotalAppend(b', e, sel);
    }
  }

  /** Removing entry `j` takes away exactly its share of the total. */
  lemma {:induction false} TotalRemoveAt(b: seq<Entry>, j: nat, sel: OwnedMetricName -> bool)
    requires j < |b|
    ensures Total(b, sel) == Total(b[..j] + b[j + 1..], sel) + (if sel(b[j].name) then b[j].count else 0)
    decreases |b|
  {
    var init, last := b[..|b| - 1], b[|b| - 1];
    if j == |b| - 1 {
      assert b[..j] + b[j + 1..] == init;
    } else {
      var rest := init[..j] + init[j + 1..];
      assert b[..j] + b[j + 1..] == rest + [last];
      TotalRemoveAt(init, j, sel);
      TotalAppend(rest, last, sel);
    }
  }

  /** A total does not depend on the order of the entries: hash-map iteration order is irrelevant. */
  lemma {:induction false} TotalPerm(a: seq<Entry>, b: seq<Entry>, sel: OwnedMetricName -> bool)
    requires multiset(a) == multiset(b)
    ensures Total(a, sel) == Total(b, sel)
    decreases |a|
  {
    if a == [] {
      assert |b| == |multiset(b)| == 0;
    } else {
      var a', e := a[..|a| - 1], a[|a| - 1];
      assert a == a' + [e];
      assert e in multiset(b);
      var j :| 0 <= j < |b| && b[j] == e;
      var rest := b[..j] + b[j + 1..];
      MultisetRemoveAt(b, j);
      assert multiset(a') == multiset(a) - multiset{e} == multiset(rest);
      TotalPerm(a', rest, sel);
      TotalAppend(a', e, sel);
      TotalRemoveAt(b, j, sel);
    }
  }

  lemma MultisetRemoveAt(b: seq<Entry>, j: nat)
    requires j < |b|
    ensures multiset(b[..j] + b[j + 1..]) == multiset(b) - multiset{b[j]}
  {
    assert b == (b[..j] + [b[j]]) + b[j + 1..];
  }

  lemma UpdateKeepsDistinct(buf: seq<Entry>, key: MetricName, val: nat)
    requires Distinct(buf)
    ensures Distinct(UpdatedEntries(buf, key, val))
  {
    var r := UpdatedEntries(buf, key, val);
    if FindEq(buf, key).None? {
      forall i | 0 <= i < |buf|
        ensures !Same(buf[i].name, CloneIntoOwned(key))
      {
        SameCloneIffEq(buf[i].name, key);
      }
      assert r[|buf|].name == CloneIntoOwned(key);
    }
  }

  /**
   `update` on a hit: only the equal entry changes, its count grows by `val`,
   and nothing is inserted.
   */
  lemma UpdateHit(buf: seq<Entry>, key: MetricName, val: nat, i: nat)
    requires Distinct(buf)
    requires i < |buf| && Eq(buf[i].name, key)
    ensures |UpdatedEntries(buf, key, val)| == |buf|
    ensures UpdatedEntries(buf, key, val)[i] == Entry(buf[i].name, buf[i].count + val)
    ensures forall j :: 0 <= j < |buf| && j != i ==> UpdatedEntries(buf, key, val)[j] == buf[j]
  {
    FindEqUnique(buf, key, i);
  }

  /** `update` on a miss: exactly one entry, the conversion of `key` with count `val`, is added. */
  lemma UpdateMiss(buf: seq<Entry>, key: MetricName, val: nat)
    requires forall i :: 0 <= i < |buf| ==> !Eq(buf[i].name, key)
    ensures UpdatedEntries(buf, key, val) == buf + [Entry(CloneIntoOwned(key), val)]
  {
  }

  /**
   Reading after `update(key, val)`: a key equal to `key` sees its old count
   (0 when absent) plus `val`; every other key sees what it saw before.
   */
  lemma LookupAfterUpdate(buf: seq<Entry>, key: MetricName, val: nat, q: MetricName)
    requires Distinct(buf)
    ensures Lookup(UpdatedEntries(buf, key, val), q) ==
      if Eq(CloneIntoOwned(key), q)
      then Some((match Lookup(buf, q) case Some(c) => c case None => 0) + val)
      else Lookup(buf, q)
  {
    match FindEq(buf, key)
    case Some(i) => LookupAfterHit(buf, key, val, q, i);
    case None => LookupAfterMiss(buf, key, val, q);
  }

  lemma LookupAfterHit(buf: seq<Entry>, key: MetricName, val: nat, q: MetricName, i: nat)
    requires Distinct(buf)
    requires FindEq(buf, key) == Some(i)
    ensures Lookup(UpdatedEntries(buf, key, val), q) ==
      if Eq(CloneIntoOwned(key), q)
      then Some((match Lookup(buf, q) case Some(c) => c case None => 0) + val)
      else Lookup(buf, q)
  {
    var r := buf[i := Entry(buf[i].name, buf[i].count + val)];
    assert UpdatedEntries(buf, key, val) == r;
    FindFirstNamesOnly(r, buf, o => Eq(o, q));
    assert FindEq(r, q) == FindEq(buf, q);
    EqTransfer(buf[i].name, key, q);
    if Eq(buf[i].name, q) {
      FindEqUnique(buf, q, i);
    } else {
      match FindEq(buf, q)
      case Some(j) =>
        assert j != i;
        assert r[j] == buf[j];
      case None =>
    }
  }

  lemma LookupAfterMiss(buf: seq<Entry>, key: MetricName, val: nat, q: MetricName)
    requires Distinct(buf)
    requires FindEq(buf, key) == None
    ensures Lookup(UpdatedEntries(buf, key, val), q) ==
      if Eq(CloneIntoOwned(key), q)
      then Some((match Lookup(buf, q) case Some(c) => c case None => 0) + val)
      else Lookup(buf, q)
  {
    var e := Entry(CloneIntoOwned(key), val);
    FindFirstAppend(buf, e, o => Eq(o, q));
    if Eq(CloneIntoOwned(key), q) && FindEq(buf, q).Some? {
      var j := FindEq(buf, q).value;
      EqEqSame(buf[j].name, CloneIntoOwned(key), q);
      SameCloneIffEq(buf[j].name, key);
      assert false;
    }
  }

  /** Reading an identity equal to the recorded one: its old count (0 when absent) plus `val`. */
  lemma LookupAfterUpdateSame(buf: seq<Entry>, key: MetricName, val: nat, q: MetricName)
    requires Distinct(buf)
    requires Eq(CloneIntoOwned(key), q)
    ensures Lookup(UpdatedEntries(buf, key, val), q) == Some(Counted(buf, q) + val)
  {
    LookupAfterUpdate(buf, key, val, q);
  }

  /** Reading any other identity: unchanged by the update. */
  lemma LookupAfterUpdateOther(buf: seq<Entry>, key: MetricName, val: nat, q: MetricName)
    requires Distinct(buf)
    requires !Eq(CloneIntoOwned(key), q)
    ensures Lookup(UpdatedEntries(buf, key, val), q) == Lookup(buf, q)
  {
    LookupAfterUpdate(buf, key, val, q);
  }

  /** `update` adds `val` to every selection that respects `same` and contains the key. */
  lemma UpdateTotal(buf: seq<Entry>, key: MetricName, val: nat, sel: OwnedMetricName -> bool)
    requires RespectsSame(sel)
    ensures Total(UpdatedEntries(buf, key, val), sel) ==
            Total(buf, sel) + (if sel(CloneIntoOwned(key)) then val else 0)
  {
    match FindEq(buf, key)
    case Some(i) =>
      SameCloneIffEq(buf[i].name, key);
      TotalReplaceCount(buf, i, buf[i].count + val, sel);
    case None =>
      TotalAppend(buf, Entry(CloneIntoOwned(key), val), sel);
  }

  /** After `update(key, val)` the all-dimensions sum for `key`'s metric key has grown by `val`. */
  lemma KeySumAfterUpdate(buf: seq<Entry>, key: MetricName, val: nat, k: string)
    ensures KeySum(UpdatedEntries(buf, key, val), k) == KeySum(buf, k) + (if key.key == k then val else 0)
  {
    UpdateTotal(buf, key, val, HasKey(k));
  }

  lemma MergeEntryKeepsDistinct(buf: seq<Entry>, e: Entry)
    requires Distinct(buf)
    ensures Distinct(MergeEntry(buf, e))
  {
    if FindSame(buf, e.name).None? {
      assert MergeEntry(buf, e)[|buf|].name == e.name;
    }
  }

  lemma {:induction false} MergeKeepsDistinct(buf: seq<Entry>, other: seq<Entry>)
    requires Distinct(buf)
    ensures Distinct(MergedEntries(buf, other))
    decreases |other|
  {
    if other != [] {
      MergeKeepsDistinct(buf, other[..|other| - 1]);
      MergeEntryKeepsDistinct(MergedEntries(buf, other[..|other| - 1]), other[|other| - 1]);
    }
  }

  lemma MergeEntryTotal(buf: seq<Entry>, e: Entry, sel: OwnedMetricName -> bool)
    requires RespectsSame(sel)
    ensures Total(MergeEntry(buf, e), sel) == Total(buf, sel) + (if sel(e.name) then e.count else 0)
  {
    match FindSame(buf, e.name)
    case Some(i) =>
      TotalReplaceCount(buf, i, buf[i].count + e.count, sel);
    case None =>
      TotalAppend(buf, Entry(e.name, e.count), sel);
  }

  /** Every `same`-respecting total of a merge is the sum of the two totals. */
  lemma {:induction false} MergeTotal(buf: seq<Entry>, other: seq<Entry>, sel: OwnedMetricName -> bool)
    requires RespectsSame(sel)
    ensures Total(MergedEntries(buf, other), sel) == Total(buf, sel) + Total(other, sel)
    decreases |other|
  {
    if other != [] {
      MergeTotal(buf, other[..|other| - 1], sel);
      MergeEntryTotal(MergedEntries(buf, other[..|other| - 1]), other[|other| - 1], sel);
    }
  }

  /** After `merge`, the count of each identity is its count in `self` plus its count in `other`. */
  lemma MergeCounts(buf: seq<Entry>, other: seq<Entry>, n: OwnedMetricName)
    ensures SameCount(MergedEntries(buf, other), n) == SameCount(buf, n) + SameCount(other, n)
  {
    var sel := SameAs(n);
    forall a, b | Same(a, b)
      ensures sel(a) == sel(b)
    {
      SameSymmetric(a, b);
      if Same(a, n) { SameTransitive(b, a, n); }
      if Same(b, n) { SameTransitive(a, b, n); }
    }
    MergeTotal(buf, other, sel);
  }

  /** After `merge`, the all-dimensions sum of every metric key is the sum of the two. */
  lemma KeySumAfterMerge(buf: seq<Entry>, other: seq<Entry>, k: string)
    ensures KeySum(MergedEntries(buf, other), k) == KeySum(buf, k) + KeySum(other, k)
  {
    MergeTotal(buf, other, HasKey(k));
  }

  /**
   Reading after one step of `merge`: an identity equal to the entry's name
   sees its old count (0 when absent) plus the entry's count, and is present
   even when that count is 0; every other identity sees what it saw before.
   */
  lemma LookupAfterMergeEntry(buf: seq<Entry>, e: Entry, q: MetricName)
    requires Distinct(buf)
    ensures Lookup(MergeEntry(buf, e), q) ==
      if Eq(e.name, q) then Some(Counted(buf, q) + e.count) else Lookup(buf, q)
  {
    match FindSame(buf, e.name)
    case Some(i) => LookupAfterMergeHit(buf, e, q, i);
    case None => LookupAfterMergeMiss(buf, e, q);
  }

  lemma LookupAfterMergeHit(buf: seq<Entry>, e: Entry, q: MetricName, i: nat)
    requires Distinct(buf)
    requires FindSame(buf, e.name) == Some(i)
    ensures Lookup(MergeEntry(buf, e), q) ==
      if Eq(e.name, q) then Some(Counted(buf, q) + e.count) else Lookup(buf, q)
  {
    var r := buf[i := Entry(buf[i].name, buf[i].count + e.count)];
    assert MergeEntry(buf, e) == r;
    FindFirstNamesOnly(r, buf, o => Eq(o, q));
    assert FindEq(r, q) == FindEq(buf, q);
    EqRespectsSame(buf[i].name, e.name, q);
    if Eq(e.name, q) {
      FindEqUnique(buf, q, i);
    } else {
      match FindEq(buf, q)
      case Some(j) =>
        assert j != i;
        assert r[j] == buf[j];
      case None =>
    }
  }

  lemma LookupAfterMergeMiss(buf: seq<Entry>, e: Entry, q: MetricName)
    requires Distinct(buf)
    requires FindSame(buf, e.name) == None
    ensures Lookup(MergeEntry(buf, e), q) ==
      if Eq(e.name, q) then Some(Counted(buf, q) + e.count) else Lookup(buf, q)
  {
    var n := Entry(e.name, 0 + e.count);
    assert MergeEntry(buf, e) == buf + [n];
    FindFirstAppend(buf, n, o => Eq(o, q));
    if Eq(e.name, q) && FindEq(buf, q).Some? {
      var j := FindEq(buf, q).value;
      EqEqSame(buf[j].name, e.name, q);
      assert false;
    }
  }

  /**
   Reading after `merge`: the count of `q` is its count in `self` plus the
   counts of the entries of `other` equal to it, and `q` is present exactly
   when it was present before or some entry of `other` equals it (entries
   inserted with `(k, 0)` are present with count 0).
   */
  lemma {:induction false} LookupAfterMerge(buf: seq<Entry>, other: seq<Entry>, q: MetricName)
    requires Distinct(buf)
    ensures Counted(MergedEntries(buf, other), q) == Counted(buf, q) + Total(other, EqTo(q))
    ensures Lookup(MergedEntries(buf, other), q).Some? <==> Lookup(buf, q).Some? || FindEq(other, q).Some?
    decreases |other|
  {
    if other != [] {
      var prefix, e := other[..|other| - 1], other[|other| - 1];
      assert other == prefix + [e];
      LookupAfterMerge(buf, prefix, q);
      MergeKeepsDistinct(buf, prefix);
      LookupAfterMergeEntry(MergedEntries(buf, prefix), e, q);
      FindFirstAppend(prefix, e, o => Eq(o, q));
    }
  }

  /** Merging a store holding only `m` with count 0 into an empty one makes `get_counter(m)` read `Some(0)`. */
  lemma MergeInsertsZero(m: MetricName)
    ensures Lookup(MergedEntries([], [Entry(CloneIntoOwned(m), 0)]), m) == Some(0)
  {
    CloneIntoOwnedEq(m);
    LookupAfterMerge([], [Entry(CloneIntoOwned(m), 0)], m);
    assert FindEq([Entry(CloneIntoOwned(m), 0)], m).Some?;
  }

  /** Totals after `merge` do not depend on the iteration order of either map. */
  lemma MergeTotalPerm(buf: seq<Entry>, buf': seq<Entry>, other: seq<Entry>, other': seq<Entry>, sel: OwnedMetricName -> bool)
    requires RespectsSame(sel)
    requires multiset(buf) == multiset(buf') && multiset(other) == multiset(other')
    ensures Total(MergedEntries(buf, other), sel) == Total(MergedEntries(buf', other'), sel)
  {
    MergeTotal(buf, other, sel);
    MergeTotal(buf', other', sel);
    TotalPerm(buf, buf', sel);
    TotalPerm(other, other', sel);
  }

  /** Merging is order-independent in the counts: `(a + b) + c` and `(a + c) + b` agree per identity. */
  lemma MergeOrderIrrelevant(a: seq<Entry>, b: seq<Entry>, c: seq<Entry>, n: OwnedMetricName)
    ensures SameCount(MergedEntries(MergedEntries(a, b), c), n) ==
            SameCount(MergedEntries(MergedEntries(a, c), b), n)
  {
    MergeCounts(a, b, n);
    MergeCounts(MergedEntries(a, b), c, n);
    MergeCounts(a, c, n);
    MergeCounts(MergedEntries(a, c), b, n);
  }

  /**
   `merge` keeps every existing key object in place; an entry of `self` that
   no entry of `other` is `same` as keeps its count.
   */
  lemma {:induction false} MergeKeepsExisting(buf: seq<Entry>, other: seq<Entry>)
    ensures |MergedEntries(buf, other)| >= |buf|
    ensures forall i :: 0 <= i < |buf| ==> MergedEntries(buf, other)[i].name == buf[i].name
    ensures forall i :: 0 <= i < |buf| && (forall j :: 0 <= j < |other| ==> !Same(other[j].name, buf[i].name))
              ==> MergedEntries(buf, other)[i] == buf[i]
    decreases |other|
  {
    if other != [] {
      var prefix := other[..|other| - 1];
      var e := other[|other| - 1];
      MergeKeepsExisting(buf, prefix);
      var acc := MergedEntries(buf, prefix);
      forall i | 0 <= i < |buf| && (forall j :: 0 <= j < |other| ==> !Same(other[j].name, buf[i].name))
        ensures MergeEntry(acc, e)[i] == buf[i]
      {
        assert forall j :: 0 <= j < |prefix| ==> prefix[j] == other[j];
        match FindSame(acc, e.name)
        case Some(k) =>
          if k == i {
            SameSymmetric(acc[i].name, e.name);
            assert false;
          }
        case None =>
      }
    }
  }

  // ---------------------------------------------------------------------------
  // The store
  // ---------------------------------------------------------------------------

  class MetricStore {
    var buf: seq<Entry>
    const hasher: BuildHasher

    ghost predicate Valid()
      reads this
    {
      Distinct(buf)
    }

    /** `MetricStore::default()` with the given hash builder. */
    constructor (hasher: BuildHasher)
      ensures Valid() && buf == [] && this.hasher == hasher
    {
      buf := [];
      this.hasher := hasher;
    }

    /** The hash the map remembers for a stored identity: the builder applied to its writes. */
    function StoredHash(o: OwnedMetricName): u64
      reads this
    {
      hasher.finish(OwnedTrace(o))
    }

    /** `raw_entry().from_hash(hash, |q| q.eq(key))`. */
    method FindByEq(hash: u64, key: MetricName) returns (r: Option<nat>)
      requires hash == hasher.finish(BorrowedTrace(key))
      ensures r == FindEq(buf, key)
    {
      var i := 0;
      while i < |buf|
        invariant 0 <= i <= |buf|
        invariant forall j :: 0 <= j < i ==> !Eq(buf[j].name, key)
      {
        if Eq(buf[i].name, key) {
          EqImpliesSameTrace(buf[i].name, key);
        }
        if StoredHash(buf[i].name) == hash && Eq(buf[i].name, key) {
          return Some(i);
        }
        i := i + 1;
      }
      return None;
    }

    /** `raw_entry_mut().from_hash(hash, |q| q.same(k))`. */
    method FindBySame(hash: u64, k: OwnedMetricName) returns (r: Option<nat>)
      requires hash == hasher.finish(OwnedTrace(k))
      ensures r == FindSame(buf, k)
    {
      var i := 0;
      while i < |buf|
        invariant 0 <= i <= |buf|
        invariant forall j :: 0 <= j < i ==> !Same(buf[j].name, k)
      {
        if Same(buf[i].name, k) {
          SameImpliesSameTrace(buf[i].name, k);
        }
        if StoredHash(buf[i].name) == hash && Same(buf[i].name, k) {
          return Some(i);
        }
        i := i + 1;
      }
      return None;
    }

    /** `MetricStore::update`. */
    method Update(key: MetricName, val: nat)
      requires Valid()
      modifies this
      ensures Valid()
      ensures buf == UpdatedEntries(old(buf), key, val)
    {
      UpdateKeepsDistinct(buf, key, val);
      var hash := ComputeHashBorrowed(hasher, key);
      var found := FindByEq(hash, key);
      match found
      case Some(i) =>
        buf := buf[i := Entry(buf[i].name, buf[i].count + val)];
      case None =>
        buf := buf + [Entry(CloneIntoOwned(key), val)];
    }

    /** `MetricStore::get_counter`: reads the entry equal to `key`, if any. */
    method GetCounter(key: MetricName) returns (r: Option<nat>)
      ensures r == Lookup(buf, key)
    {
      var hash := ComputeHashBorrowed(hasher, key);
      var found := FindByEq(hash, key);
      match found
      case Some(i) => r := Some(buf[i].count);
      case None => r := None;
    }

    /**
     `MetricStore::get_counter_all_dim`: `None` when no entry has metric key
     `key`, otherwise the sum of the counts of all entries with that key.
     */
    method GetCounterAllDim(key: string) returns (r: Option<nat>)
      ensures r.None? <==> forall i :: 0 <= i < |buf| ==> buf[i].name.key != key
      ensures r.Some? ==> r.value == KeySum(buf, key)
    {
      r := None;
      for n := 0 to |buf|
        invariant r.None? <==> forall i :: 0 <= i < n ==> buf[i].name.key != key
        invariant r.Some? ==> r.value == KeySum(buf[..n], key)
        invariant r.None? ==> KeySum(buf[..n], key) == 0
      {
        assert buf[..n + 1][..n] == buf[..n];
        if buf[n].name.key == key {
          var acc := match r case Some(v) => v case None => 0;
          r := Some(acc + buf[n].count);
        }
      }
      assert buf[..|buf|] == buf;
    }

    /** One step of `MetricStore::merge`: adds `e`'s count to the `same` entry, inserting `e`'s key at 0 first. */
    method FoldIn(e: Entry)
      requires Valid()
      modifies this
      ensures Valid()
      ensures buf == MergeEntry(old(buf), e)
    {
      MergeEntryKeepsDistinct(buf, e);
      var hash := ComputeHashOwned(hasher, e.name);
      var found := FindBySame(hash, e.name);
      match found
      case Some(i) =>
        buf := buf[i := Entry(buf[i].name, buf[i].count + e.count)];
      case None =>
        buf := buf + [Entry(e.name, 0 + e.count)];
    }

    /** `MetricStore::merge`: folds every entry of `other` into this store. */
    method Merge(other: MetricStore)
      requires Valid()
      modifies this
      ensures Valid()
      ensures buf == MergedEntries(old(buf), old(other.buf))
    {
      var incoming := other.buf;
      for n := 0 to |incoming|
        invariant Valid()
        invariant buf == MergedEntries(old(buf), incoming[..n])
      {
        assert incoming[..n + 1][..n] == incoming[..n];
        FoldIn(incoming[n]);
      }
      assert incoming[..|incoming|] == incoming;
    }
  }

  /** The identity `("foo", ("helper", &h))` of the `one_dimension` test. */
  function HelperMetric(h: HelperIdentity): MetricName
  {
    FromTuple(("foo", ("helper", Helper(h))))
  }

  /** The probe on a one-entry map. */
  lemma FindEqOne(e: Entry, q: MetricName)
    ensures FindEq([e], q) == if Eq(e.name, q) then Some(0) else None
  {
    assert [e][..0] == [];
  }

  /** The probe on a two-entry map. */
  lemma FindEqTwo(e1: Entry, e2: Entry, q: MetricName)
    ensures FindEq([e1, e2], q) == if Eq(e1.name, q) then Some(0) else if Eq(e2.name, q) then Some(1) else None
  {
    assert [e1, e2][..1] == [e1];
    FindEqOne(e1, q);
  }

  /** 0 + 1 + ... + (n - 1) */
  function Triangle(n: nat): nat
  {
    if n == 0 then 0 else Triangle(n - 1) + (n - 1)
  }

  /**
   The loop of the `one_dimension` test: `m1` is recorded with 0, 1, ..., 9
   into a store holding exactly `m1`'s and `m2`'s entries.
   */
  method RecordIncrements(store: MetricStore, m1: MetricName, m2: MetricName, c2: nat)
    requires store.Valid()
    requires store.buf == [Entry(CloneIntoOwned(m1), 0), Entry(CloneIntoOwned(m2), c2)]
    modifies store
    ensures store.Valid()
    ensures store.buf == [Entry(CloneIntoOwned(m1), 45), Entry(CloneIntoOwned(m2), c2)]
  {
    CloneIntoOwnedEq(m1);
    ghost var sum := 0;
    for i := 0 to 10
      invariant store.Valid()
      invariant sum == Triangle(i)
      invariant store.buf == [Entry(CloneIntoOwned(m1), sum), Entry(CloneIntoOwned(m2), c2)]
    {
      FindEqTwo(Entry(CloneIntoOwned(m1), sum), Entry(CloneIntoOwned(m2), c2), m1);
      store.Update(m1, i);
      sum := sum + i;
    }
  }

  /** The first two updates of the `one_dimension` test: `m1` and `m2` are recorded with 0 into an empty store. */
  method RecordBoth(store: MetricStore, m1: MetricName, m2: MetricName)
    requires !Eq(CloneIntoOwned(m1), m2)
    requires store.Valid() && store.buf == []
    modifies store
    ensures store.Valid()
    ensures store.buf == [Entry(CloneIntoOwned(m1), 0), Entry(CloneIntoOwned(m2), 0)]
  {
    CloneIntoOwnedEq(m1);
    var o1 := CloneIntoOwned(m1);
    store.Update(m1, 0);
    assert store.buf == [Entry(o1, 0)];
    FindEqOne(Entry(o1, 0), m2);
    store.Update(m2, 0);
  }

  /**
   The recording part of the `one_dimension` test, from an empty store:
   `m1` with 0, `m2` with 0, `m1` with 0..9, `m2` with 3.  The store ends up
   with exactly two entries.
   */
  method RecordOneDimension(store: MetricStore, m1: MetricName, m2: MetricName)
    requires !Eq(CloneIntoOwned(m1), m2)
    requires store.Valid() && store.buf == []
    modifies store
    ensures store.Valid()
    ensures store.buf == [Entry(CloneIntoOwned(m1), 45), Entry(CloneIntoOwned(m2), 3)]
  {
    CloneIntoOwnedEq(m2);
    RecordBoth(store, m1, m2);
    RecordIncrements(store, m1, m2, 0);
    FindEqTwo(Entry(CloneIntoOwned(m1), 45), Entry(CloneIntoOwned(m2), 0), m2);
    store.Update(m2, 3);
  }

  /**
   The `one_dimension` test: after the recorded updates the counters read 45
   for H1, 3 for H2 and nothing for H3.
   */
  method OneDimension(builder: BuildHasher) returns (h1: Option<nat>, h2: Option<nat>, h3: Option<nat>)
    ensures h1 == Some(45) && h2 == Some(3) && h3 == None
  {
    var store := new MetricStore(builder);
    var h1Metric := HelperMetric(H1);
    var h2Metric := HelperMetric(H2);
    var h3Metric := HelperMetric(H3);
    HelperLabelsNeverCollide("foo", "helper", H1, H1);
    HelperLabelsNeverCollide("foo", "helper", H1, H2);
    HelperLabelsNeverCollide("foo", "helper", H1, H3);
    HelperLabelsNeverCollide("foo", "helper", H2, H2);
    HelperLabelsNeverCollide("foo", "helper", H2, H3);
    RecordOneDimension(store, h1Metric, h2Metric);
    var e1, e2 := Entry(CloneIntoOwned(h1Metric), 45), Entry(CloneIntoOwned(h2Metric), 3);
    FindEqTwo(e1, e2, h1Metric);
    FindEqTwo(e1, e2, h2Metric);
    FindEqTwo(e1, e2, h3Metric);
    h1 := store.GetCounter(h1Metric);
    h2 := store.GetCounter(h2Metric);
    h3 := store.GetCounter(h3Metric);
  }
}
