/**
 Dimensional metric identities (src/dimensions.rs).

 A borrowed identity `MetricName` is a static key plus a fixed array of
 `LABELS` optional `(label name, label value)` slots; it is used to probe the
 store. An owned identity `OwnedMetricName` is what the store keeps: each
 present slot also carries the value's numeric surrogate (`as_u64`), captured
 once at conversion time, and a boxed copy of the value.

 Two contracts tie the two views together and are proved here:
 - both `Hash` implementations feed the hasher the same sequence of writes;
 - equality is weak: key, slot presence, label name and surrogate, never the
   boxed value.
 */
module Dimensions {

  /** Number of label slots (the default `LABELS` const parameter). */
  const LABELS: nat := 5

  newtype u64 = x: int | 0 <= x < 0x1_0000_0000_0000_0000

  datatype Option<T> = None | Some(value: T)

  // ---------------------------------------------------------------------------
  // Label values
  // ---------------------------------------------------------------------------

  /** The helper-party label used by the tests. */
  datatype HelperIdentity = H1 | H2 | H3

  /** `HelperIdentity::as_u64`: the enum discriminant. */
  function HelperAsU64(h: HelperIdentity): (r: u64)
    ensures r < 3
  {
    match h
    case H1 => 0
    case H2 => 1
    case H3 => 2
  }

  /** Distinct helpers have distinct surrogates, so their labels never collide. */
  lemma HelperAsU64Injective(a: HelperIdentity, b: HelperIdentity)
    ensures HelperAsU64(a) == HelperAsU64(b) <==> a == b
  {
  }

  /**
   A type-erased label value (`dyn LabelValue`). `HelperIdentity` is the one
   implementor in the repository; `Other` stands for any further implementor,
   given by the surrogate it reports and an opaque display token.
   */
  datatype LabelValue = Helper(id: HelperIdentity) | Other(surrogate: u64, display: string)

  /** The trait method `as_u64`, dispatched on the implementor. */
  function AsU64(v: LabelValue): (r: u64)
    ensures v.Helper? ==> r < 3
    ensures v.Other? ==> r == v.surrogate
  {
    match v
    case Helper(h) => HelperAsU64(h)
    case Other(s, _) => s
  }

  // ---------------------------------------------------------------------------
  // Borrowed and owned identities
  // ---------------------------------------------------------------------------

  /** A borrowed label: `(&'static str, &dyn LabelValue)`. */
  datatype Label = Label(name: string, value: LabelValue)

  type BorrowedSlots = s: seq<Option<Label>> | |s| == LABELS
    witness [None, None, None, None, None]

  /** `MetricName`: the lookup key. */
  datatype MetricName = MetricName(key: string, labels: BorrowedSlots)

  /** An owned label: `(&'static str, u64, Box<dyn LabelValue>)`. */
  datatype OwnedLabel = OwnedLabel(name: string, surrogate: u64, value: LabelValue)

  type OwnedSlots = s: seq<Option<OwnedLabel>> | |s| == LABELS
    witness [None, None, None, None, None]

  /** `OwnedMetricName`: the stored key. */
  datatype OwnedMetricName = OwnedMetricName(key: string, labels: OwnedSlots)

  /** `MetricName::with_no_labels`. */
  function WithNoLabels(name: string): (m: MetricName)
    ensures m.key == name
    ensures forall i :: 0 <= i < LABELS ==> m.labels[i] == None
  {
    MetricName(name, seq(LABELS, _ => None))
  }

  /** `MetricName::with_one_label`: slot 0 holds the label, the others are empty. */
  function WithOneLabel(name: string, labelName: string, labelValue: LabelValue): (m: MetricName)
    ensures m.key == name
    ensures m.labels[0] == Some(Label(labelName, labelValue))
    ensures forall i :: 1 <= i < LABELS ==> m.labels[i] == None
  {
    MetricName(name, seq(LABELS, i => if i == 0 then Some(Label(labelName, labelValue)) else None))
  }

  /** `From<(&str, (&str, &R))> for MetricName`: builds the same identity as `with_one_label`. */
  function FromTuple(value: (string, (string, LabelValue))): (m: MetricName)
    ensures m == WithOneLabel(value.0, value.1.0, value.1.1)
  {
    var m := MetricName(value.0, [Some(Label(value.1.0, value.1.1)), None, None, None, None]);
    assert m.labels == WithOneLabel(value.0, value.1.0, value.1.1).labels;
    m
  }

  function OwnSlot(slot: Option<Label>): Option<OwnedLabel>
  {
    match slot
    case None => None
    case Some(l) => Some(OwnedLabel(l.name, AsU64(l.value), l.value))
  }

  /**
   `MetricName::clone_into_owned`: keeps the key and every label name, records
   each value's surrogate and a copy of the value, and keeps empty slots empty.
   */
  function CloneIntoOwned(m: MetricName): (o: OwnedMetricName)
    ensures o.key == m.key
    ensures forall i :: 0 <= i < LABELS ==> (o.labels[i].None? <==> m.labels[i].None?)
    ensures forall i :: 0 <= i < LABELS && m.labels[i].Some? ==>
              o.labels[i].value.name == m.labels[i].value.name &&
              o.labels[i].value.surrogate == AsU64(m.labels[i].value.value) &&
              o.labels[i].value.value == m.labels[i].value.value
  {
    OwnedMetricName(m.key, seq(LABELS, i requires 0 <= i < LABELS => OwnSlot(m.labels[i])))
  }

  /** `Clone for OwnedMetricName`: copies key, names and surrogates, re-boxes each value. */
  function Clone(o: OwnedMetricName): (c: OwnedMetricName)
    ensures c == o
    ensures Same(c, o)
  {
    var c := OwnedMetricName(o.key, seq(LABELS, i requires 0 <= i < LABELS =>
      match o.labels[i]
      case None => None
      case Some(l) => Some(OwnedLabel(l.name, l.surrogate, l.value))));
    assert c.labels == o.labels;
    SameReflexive(o);
    c
  }

  // ---------------------------------------------------------------------------
  // Weak equality
  // ---------------------------------------------------------------------------

  predicate SlotEq(a: Option<OwnedLabel>, b: Option<Label>)
  {
    match (a, b)
    case (None, None) => true
    case (Some(x), Some(y)) => x.surrogate == AsU64(y.value) && x.name == y.name
    case _ => false
  }

  /** `zip(..).all(..)` over the slots of an owned and a borrowed identity. */
  predicate AllSlotsEq(a: seq<Option<OwnedLabel>>, b: seq<Option<Label>>)
    decreases |a|
  {
    if a == [] || b == [] then true else SlotEq(a[0], b[0]) && AllSlotsEq(a[1..], b[1..])
  }

  /** `PartialEq<MetricName> for &OwnedMetricName`. */
  predicate Eq(o: OwnedMetricName, m: MetricName)
    ensures Eq(o, m) ==>
      o.key == m.key &&
      forall i :: 0 <= i < LABELS ==>
        o.labels[i].Some? == m.labels[i].Some? &&
        (o.labels[i].Some? ==> o.labels[i].value.name == m.labels[i].value.name)
  {
    AllSlotsEqIff(o.labels, m.labels);
    if o.key != m.key then false else AllSlotsEq(o.labels, m.labels)
  }

  predicate SlotSame(a: Option<OwnedLabel>, b: Option<OwnedLabel>)
  {
    match (a, b)
    case (Some(x), Some(y)) => x.name == y.name && x.surrogate == y.surrogate
    case (None, None) => true
    case _ => false
  }

  predicate AllSlotsSame(a: seq<Option<OwnedLabel>>, b: seq<Option<OwnedLabel>>)
    decreases |a|
  {
    if a == [] || b == [] then true else SlotSame(a[0], b[0]) && AllSlotsSame(a[1..], b[1..])
  }

  /** `OwnedMetricName::same`: the owned/owned analogue of `Eq`. */
  predicate Same(a: OwnedMetricName, b: OwnedMetricName)
    ensures Same(a, b) ==>
      a.key == b.key &&
      forall i :: 0 <= i < LABELS ==>
        a.labels[i].Some? == b.labels[i].Some? &&
        (a.labels[i].Some? ==> a.labels[i].value.name == b.labels[i].value.name)
  {
    AllSlotsSameIff(a.labels, b.labels);
    a.key == b.key && AllSlotsSame(a.labels, b.labels)
  }

  lemma {:induction false} AllSlotsEqIff(a: seq<Option<OwnedLabel>>, b: seq<Option<Label>>)
    requires |a| == |b|
    ensures AllSlotsEq(a, b) <==> forall i :: 0 <= i < |a| ==> SlotEq(a[i], b[i])
  {
    if a != [] {
      AllSlotsEqIff(a[1..], b[1..]);
      assert forall i :: 1 <= i < |a| ==> a[i] == a[1..][i - 1] && b[i] == b[1..][i - 1];
    }
  }

  lemma {:induction false} AllSlotsSameIff(a: seq<Option<OwnedLabel>>, b: seq<Option<OwnedLabel>>)
    requires |a| == |b|
    ensures AllSlotsSame(a, b) <==> forall i :: 0 <= i < |a| ==> SlotSame(a[i], b[i])
  {
    if a != [] {
      AllSlotsSameIff(a[1..], b[1..]);
      assert forall i :: 1 <= i < |a| ==> a[i] == a[1..][i - 1] && b[i] == b[1..][i - 1];
    }
  }

  /**
   Weak equality, slot by slot: keys equal and each slot either empty on both
   sides or present on both with equal label name and equal surrogate. The
   label value itself is never compared.
   */
  lemma EqIff(o: OwnedMetricName, m: MetricName)
    ensures Eq(o, m) <==>
      o.key == m.key &&
      forall i :: 0 <= i < LABELS ==>
        (o.labels[i].None? && m.labels[i].None?) ||
        (o.labels[i].Some? && m.labels[i].Some? &&
         o.labels[i].value.name == m.labels[i].value.name &&
         o.labels[i].value.surrogate == AsU64(m.labels[i].value.value))
  {
    AllSlotsEqIff(o.labels, m.labels);
  }

  /** `same` compares key, slot presence, label name and surrogate, slot by slot. */
  lemma SameIff(a: OwnedMetricName, b: OwnedMetricName)
    ensures Same(a, b) <==>
      a.key == b.key &&
      forall i :: 0 <= i < LABELS ==>
        (a.labels[i].None? && b.labels[i].None?) ||
        (a.labels[i].Some? && b.labels[i].Some? &&
         a.labels[i].value.name == b.labels[i].value.name &&
         a.labels[i].value.surrogate == b.labels[i].value.surrogate)
  {
    AllSlotsSameIff(a.labels, b.labels);
  }

  lemma SameReflexive(a: OwnedMetricName)
    ensures Same(a, a)
  {
    SameIff(a, a);
  }

  lemma SameSymmetric(a: OwnedMetricName, b: OwnedMetricName)
    ensures Same(a, b) <==> Same(b, a)
  {
    SameIff(a, b);
    SameIff(b, a);
  }

  lemma SameTransitive(a: OwnedMetricName, b: OwnedMetricName, c: OwnedMetricName)
    requires Same(a, b) && Same(b, c)
    ensures Same(a, c)
  {
    SameIff(a, b);
    SameIff(b, c);
    SameIff(a, c);
  }

  /** A freshly converted identity is equal to the borrowed one it came from. */
  lemma CloneIntoOwnedEq(m: MetricName)
    ensures Eq(CloneIntoOwned(m), m)
  {
    EqIff(CloneIntoOwned(m), m);
  }

  /** An owned identity is `same` as the conversion of `m` exactly when it equals `m`. */
  lemma SameCloneIffEq(o: OwnedMetricName, m: MetricName)
    ensures Same(o, CloneIntoOwned(m)) <==> Eq(o, m)
  {
    SameIff(o, CloneIntoOwned(m));
    EqIff(o, m);
  }

  /** Two owned identities equal to the same borrowed one are `same`. */
  lemma EqEqSame(a: OwnedMetricName, b: OwnedMetricName, m: MetricName)
    requires Eq(a, m) && Eq(b, m)
    ensures Same(a, b)
  {
    EqIff(a, m);
    EqIff(b, m);
    SameIff(a, b);
  }

  /** Equality to a borrowed identity only depends on the `same`-class of the owned one. */
  lemma EqRespectsSame(a: OwnedMetricName, b: OwnedMetricName, m: MetricName)
    requires Same(a, b)
    ensures Eq(a, m) <==> Eq(b, m)
  {
    SameIff(a, b);
    EqIff(a, m);
    EqIff(b, m);
  }

  /** If `a` equals `key`, then `a` equals `q` exactly when the conversion of `key` does. */
  lemma EqTransfer(a: OwnedMetricName, key: MetricName, q: MetricName)
    requires Eq(a, key)
    ensures Eq(a, q) <==> Eq(CloneIntoOwned(key), q)
  {
    SameCloneIffEq(a, key);
    EqRespectsSame(a, CloneIntoOwned(key), q);
  }

  /** Helper labels under one key and label name are equal exactly when the helpers are. */
  lemma HelperLabelsNeverCollide(key: string, labelName: string, a: HelperIdentity, b: HelperIdentity)
    ensures Eq(CloneIntoOwned(FromTuple((key, (labelName, Helper(a))))), FromTuple((key, (labelName, Helper(b)))))
            <==> a == b
  {
    var o := CloneIntoOwned(FromTuple((key, (labelName, Helper(a)))));
    var m := FromTuple((key, (labelName, Helper(b))));
    EqIff(o, m);
    if Eq(o, m) {
      assert o.labels[0].value.surrogate == AsU64(m.labels[0].value.value);
      HelperAsU64Injective(a, b);
    }
  }

  /**
   The documented trust assumption: two label values with the same surrogate
   are indistinguishable, so distinct values that collide are conflated.
   */
  lemma SurrogateCollisionConflates(key: string, labelName: string, v: LabelValue, w: LabelValue)
    requires AsU64(v) == AsU64(w)
    ensures Eq(CloneIntoOwned(WithOneLabel(key, labelName, v)), WithOneLabel(key, labelName, w))
  {
    EqIff(CloneIntoOwned(WithOneLabel(key, labelName, v)), WithOneLabel(key, labelName, w));
  }

  // ---------------------------------------------------------------------------
  // Hashing
  // ---------------------------------------------------------------------------

  /** One call on a `Hasher`: `write(bytes)` or `write_u64(n)`. */
  datatype HashWrite = Bytes(b: string) | U64(n: u64)

  /** A `Hasher`, observed through the writes it has received. */
  class Hasher {
    var trace: seq<HashWrite>

    constructor ()
      ensures trace == []
    {
      trace := [];
    }

    method Write(bytes: string)
      modifies this
      ensures trace == old(trace) + [Bytes(bytes)]
    {
      trace := trace + [Bytes(bytes)];
    }

    method WriteU64(n: u64)
      modifies this
      ensures trace == old(trace) + [U64(n)]
    {
      trace := trace + [U64(n)];
    }
  }

  /**
   A `BuildHasher`: its hashers start empty and `finish` maps the writes to the
   final hash. The function is left abstract; only its determinism matters.
   */
  datatype BuildHasher = BuildHasher(finish: seq<HashWrite> -> u64)

  /** What `compute_label_hash` writes for one borrowed slot. */
  function LabelWrites(slot: Option<Label>): seq<HashWrite>
  {
    match slot
    case None => []
    case Some(l) => [Bytes(l.name), U64(AsU64(l.value))]
  }

  /** What `Hash for MetricName` writes: the key, then the five slots in order. */
  function BorrowedTrace(m: MetricName): seq<HashWrite>
  {
    [Bytes(m.key)] + LabelWrites(m.labels[0]) + LabelWrites(m.labels[1]) + LabelWrites(m.labels[2])
      + LabelWrites(m.labels[3]) + LabelWrites(m.labels[4])
  }

  /** What `Hash for OwnedMetricName` writes for one owned slot. */
  function OwnedLabelWrites(slot: Option<OwnedLabel>): seq<HashWrite>
  {
    match slot
    case None => []
    case Some(l) => [Bytes(l.name), U64(l.surrogate)]
  }

  function OwnedSlotsTrace(ls: seq<Option<OwnedLabel>>): seq<HashWrite>
    decreases |ls|
  {
    if ls == [] then [] else OwnedSlotsTrace(ls[..|ls| - 1]) + OwnedLabelWrites(ls[|ls| - 1])
  }

  /** What `Hash for OwnedMetricName` writes: the key, then each present slot in order. */
  function OwnedTrace(o: OwnedMetricName): seq<HashWrite>
  {
    [Bytes(o.key)] + OwnedSlotsTrace(o.labels)
  }

  /** `compute_label_hash`. */
  method ComputeLabelHash(state: Hasher, slot: Option<Label>)
    modifies state
    ensures state.trace == old(state.trace) + LabelWrites(slot)
  {
    match slot
    case None =>
    case Some(l) =>
      state.Write(l.name);
      state.WriteU64(AsU64(l.value));
  }

  /** `Hash for MetricName`. */
  method HashMetricName(m: MetricName, state: Hasher)
    modifies state
    ensures state.trace == old(state.trace) + BorrowedTrace(m)
  {
    ghost var t := state.trace;
    var w := [Bytes(m.key)];
    state.Write(m.key);
    ComputeLabelHash(state, m.labels[0]);
    assert state.trace == t + (w + LabelWrites(m.labels[0]));
    ComputeLabelHash(state, m.labels[1]);
    assert state.trace == t + (w + LabelWrites(m.labels[0]) + LabelWrites(m.labels[1]));
    ComputeLabelHash(state, m.labels[2]);
    assert state.trace == t + (w + LabelWrites(m.labels[0]) + LabelWrites(m.labels[1]) + LabelWrites(m.labels[2]));
    ComputeLabelHash(state, m.labels[3]);
    assert state.trace == t + (w + LabelWrites(m.labels[0]) + LabelWrites(m.labels[1]) + LabelWrites(m.labels[2])
      + LabelWrites(m.labels[3]));
    ComputeLabelHash(state, m.labels[4]);
  }

  /** `Hash for OwnedMetricName`. */
  method HashOwnedMetricName(o: OwnedMetricName, state: Hasher)
    modifies state
    ensures state.trace == old(state.trace) + OwnedTrace(o)
  {
    state.Write(o.key);
    ghost var pre := state.trace;
    assert o.labels[..0] == [];
    for i := 0 to LABELS
      invariant state.trace == pre + OwnedSlotsTrace(o.labels[..i])
    {
      OwnedSlotsTraceStep(o.labels, i);
      match o.labels[i]
      case None =>
      case Some(l) =>
        state.Write(l.name);
        state.WriteU64(l.surrogate);
    }
    assert o.labels[..LABELS] == o.labels;
  }

  /** `compute_hash` on a borrowed identity. */
  method ComputeHashBorrowed(builder: BuildHasher, m: MetricName) returns (h: u64)
    ensures h == builder.finish(BorrowedTrace(m))
  {
    var state := new Hasher();
    HashMetricName(m, state);
    assert state.trace == BorrowedTrace(m);
    h := builder.finish(state.trace);
  }

  /** `compute_hash` on an owned identity. */
  method ComputeHashOwned(builder: BuildHasher, o: OwnedMetricName) returns (h: u64)
    ensures h == builder.finish(OwnedTrace(o))
  {
    var state := new Hasher();
    HashOwnedMetricName(o, state);
    assert state.trace == OwnedTrace(o);
    h := builder.finish(state.trace);
  }

  lemma OwnedSlotsTraceStep(ls: seq<Option<OwnedLabel>>, k: nat)
    requires k < |ls|
    ensures OwnedSlotsTrace(ls[..k + 1]) == OwnedSlotsTrace(ls[..k]) + OwnedLabelWrites(ls[k])
  {
    assert ls[..k + 1][..k] == ls[..k];
  }

  /** The owned slot loop spelled out over the five slots. */
  lemma OwnedSlotsTraceUnrolled(ls: OwnedSlots)
    ensures OwnedSlotsTrace(ls) ==
      OwnedLabelWrites(ls[0]) + OwnedLabelWrites(ls[1]) + OwnedLabelWrites(ls[2])
        + OwnedLabelWrites(ls[3]) + OwnedLabelWrites(ls[4])
  {
    var w0, w1, w2 := OwnedLabelWrites(ls[0]), OwnedLabelWrites(ls[1]), OwnedLabelWrites(ls[2]);
    var w3, w4 := OwnedLabelWrites(ls[3]), OwnedLabelWrites(ls[4]);
    assert ls[..0] == [];
    OwnedSlotsTraceStep(ls, 0);
    assert OwnedSlotsTrace(ls[..1]) == w0;
    OwnedSlotsTraceStep(ls, 1);
    assert OwnedSlotsTrace(ls[..2]) == w0 + w1;
    OwnedSlotsTraceStep(ls, 2);
    assert OwnedSlotsTrace(ls[..3]) == w0 + w1 + w2;
    OwnedSlotsTraceStep(ls, 3);
    assert OwnedSlotsTrace(ls[..4]) == w0 + w1 + w2 + w3;
    OwnedSlotsTraceStep(ls, 4);
    assert ls[..5] == ls;
  }

  lemma {:induction false} OwnedSlotsTraceCongruent(a: seq<Option<OwnedLabel>>, b: seq<Option<OwnedLabel>>)
    requires |a| == |b|
    requires forall i :: 0 <= i < |a| ==> SlotSame(a[i], b[i])
    ensures OwnedSlotsTrace(a) == OwnedSlotsTrace(b)
  {
    if a != [] {
      OwnedSlotsTraceCongruent(a[..|a| - 1], b[..|b| - 1]);
      assert OwnedLabelWrites(a[|a| - 1]) == OwnedLabelWrites(b[|b| - 1]);
    }
  }

  /**
   Hash-input consistency: an owned identity equal to a borrowed one makes
   exactly the same writes, so a borrowed key finds owned entries by hash.
   */
  lemma EqImpliesSameTrace(o: OwnedMetricName, m: MetricName)
    requires Eq(o, m)
    ensures OwnedTrace(o) == BorrowedTrace(m)
  {
    EqIff(o, m);
    OwnedSlotsTraceUnrolled(o.labels);
    SlotWritesAgree(o.labels[0], m.labels[0]);
    SlotWritesAgree(o.labels[1], m.labels[1]);
    SlotWritesAgree(o.labels[2], m.labels[2]);
    SlotWritesAgree(o.labels[3], m.labels[3]);
    SlotWritesAgree(o.labels[4], m.labels[4]);
    ConcatRegroup([Bytes(o.key)], LabelWrites(m.labels[0]), LabelWrites(m.labels[1]),
                  LabelWrites(m.labels[2]), LabelWrites(m.labels[3]), LabelWrites(m.labels[4]));
  }

  lemma ConcatRegroup(k: seq<HashWrite>, a: seq<HashWrite>, b: seq<HashWrite>, c: seq<HashWrite>,
                      d: seq<HashWrite>, e: seq<HashWrite>)
    ensures k + ((((a + b) + c) + d) + e) == ((((k + a) + b) + c) + d) + e
  {
  }

  lemma SlotWritesAgree(a: Option<OwnedLabel>, b: Option<Label>)
    requires (a.None? && b.None?) ||
             (a.Some? && b.Some? && a.value.name == b.value.name && a.value.surrogate == AsU64(b.value.value))
    ensures OwnedLabelWrites(a) == LabelWrites(b)
  {
  }

  /** `same` owned identities make exactly the same writes. */
  lemma SameImpliesSameTrace(a: OwnedMetricName, b: OwnedMetricName)
    requires Same(a, b)
    ensures OwnedTrace(a) == OwnedTrace(b)
  {
    AllSlotsSameIff(a.labels, b.labels);
    OwnedSlotsTraceCongruent(a.labels, b.labels);
  }

  /**
   Hashing a borrowed identity and hashing its owned conversion make the same
   writes, so `compute_hash` agrees on them under every builder.
   */
  lemma HashConsistency(m: MetricName, builder: BuildHasher)
    ensures OwnedTrace(CloneIntoOwned(m)) == BorrowedTrace(m)
    ensures builder.finish(OwnedTrace(CloneIntoOwned(m))) == builder.finish(BorrowedTrace(m))
  {
    CloneIntoOwnedEq(m);
    EqImpliesSameTrace(CloneIntoOwned(m), m);
  }

  /** A name without labels hashes as its key alone. */
  lemma NoLabelsTrace(name: string)
    ensures BorrowedTrace(WithNoLabels(name)) == [Bytes(name)]
  {
  }
}
