/**
 A buffer of the calculated size accepts the initialisation of every extension it was calculated for, in any
 order and with repetitions, and ends up exactly full.
 */
module InitAll {
  import opened Bytes
  import opened Common
  import opened ExtensionTypes
  import opened Tlv
  import opened TlvOps
  import opened TlvAccount

  /** One value of the packed length for each fixed-size type (its `Default`, or what is written right after). */
  type Values = v: ExtensionType -> seq<byte> | forall t :: |v(t)| == TypeLen(t)
    witness (t: ExtensionType) => Zeros(TypeLen(t))

  /** `init_extension` for each type of the list in turn, overwriting on repetition. */
  function InitEach(b: seq<byte>, base: Base, order: seq<ExtensionType>, v: Values): Result<seq<byte>> {
    if order == [] then Ok(b)
    else
      var n := |order| - 1;
      var before :- InitEach(b, base, order[..n], v);
      var (r, after) := Init(before, base, order[n], v(order[n]), true);
      if r.Err? then Err(r.error) else Ok(after)
  }

  predicate AllOfKind(ts: seq<ExtensionType>, base: Base) {
    forall t :: t in ts ==> AccountTypeOf(t) == base.Type()
  }

  ghost function EntriesOf(ts: seq<ExtensionType>, v: Values): (es: seq<Entry>)
    requires UNINITIALIZED !in ts
    ensures |es| == |ts| && forall i :: 0 <= i < |ts| ==> es[i] == EntryOf(ts[i], v)
  {
    seq(|ts|, i requires 0 <= i < |ts| => EntryOf(ts[i], v))
  }

  function EntryOf(t: ExtensionType, v: Values): (e: Entry)
    requires t != UNINITIALIZED
    ensures e.ty == t && |e.value| == TypeLen(t) && e.value == v(t)
  {
    assert TypeLen(t) <= U16_MAX;
    Entry(t, v(t))
  }

  lemma {:induction false} EncodedSum(ts: seq<ExtensionType>, v: Values)
    requires UNINITIALIZED !in ts
    ensures |Encode(EntriesOf(ts, v))| == SumTlvLen(ts)
  {
    if ts != [] {
      var n := |ts| - 1;
      assert ts == ts[..n] + [ts[n]];
      EncodedSum(ts[..n], v);
      EncodeSnoc(EntriesOf(ts[..n], v), EntryOf(ts[n], v));
      assert EntriesOf(ts, v) == EntriesOf(ts[..n], v) + [EntryOf(ts[n], v)];
    }
  }

  /** Where a type of the list stands among its entries. */
  lemma IndexOfType(d: seq<ExtensionType>, t: ExtensionType, base: Base, v: Values)
    requires UNINITIALIZED !in d && AllOfKind(d, base)
    ensures var es := EntriesOf(d, v);
            var i := IndexOf(es, t);
            && (i < |es| <==> t in d)
            && (i < |es| ==> es[i] == EntryOf(t, v))
            && SameKind(es[..i], base.Type())
  {
    var es := EntriesOf(d, v);
    var i := IndexOf(es, t);
    assert i < |es| ==> d[i] == t;
    if t in d {
      var j :| 0 <= j < |d| && d[j] == t;
      assert es[j].ty == t;
    }
    forall k | 0 <= k < i
      ensures AccountTypeOf(es[..i][k].ty) == base.Type()
    {
      assert d[k] in d;
    }
  }

  function Next(d: seq<ExtensionType>, t: ExtensionType): seq<ExtensionType> {
    if t in d then d else d + [t]
  }

  /** Storing under one more type of the list. */
  lemma PutNext(d: seq<ExtensionType>, t: ExtensionType, base: Base, v: Values)
    requires UNINITIALIZED !in d && t != UNINITIALIZED && AllOfKind(d, base)
    ensures UNINITIALIZED !in Next(d, t)
    ensures Put(EntriesOf(d, v), EntryOf(t, v)) == EntriesOf(Next(d, t), v)
  {
    hide TypeLen, AccountTypeOf;
    IndexOfType(d, t, base, v);
    var es := EntriesOf(d, v);
    var i := IndexOf(es, t);
    if t in d {
      assert es[i := es[i]] == es;
    }
  }

  lemma {:induction false} DedupeGrows(order: seq<ExtensionType>, k: nat)
    requires k <= |order|
    ensures SumTlvLen(Dedupe(order[..k])) <= SumTlvLen(Dedupe(order))
    decreases |order|
  {
    if k == |order| {
      assert order[..k] == order;
    } else {
      var n := |order| - 1;
      DedupeGrows(order[..n], k);
      assert order[..n][..k] == order[..k];
      var d, t := Dedupe(order[..n]), order[n];
      assert (d + [t])[..|d|] == d;
    }
  }

  lemma SumNext(d: seq<ExtensionType>, t: ExtensionType)
    ensures SumTlvLen(Next(d, t)) == SumTlvLen(d) + if t in d then 0 else 4 + TypeLen(t)
  {
    assert (d + [t])[..|d|] == d;
  }

  /** One initialisation on a buffer that has room for it. */
  lemma InitNext(b: seq<byte>, d: seq<ExtensionType>, t: ExtensionType, base: Base, v: Values)
    requires UNINITIALIZED !in d && AllOfKind(d, base) && AccountTypeOf(t) == base.Type()
    requires Represents(b, EntriesOf(d, v)) && SumTlvLen(Next(d, t)) <= |b|
    ensures UNINITIALIZED !in Next(d, t)
    ensures var (r, b') := Init(b, base, t, v(t), true);
            r.Ok? && |b'| == |b| && Represents(b', EntriesOf(Next(d, t), v))
  {
    hide Init, Represents, SumTlvLen, Encode, Put, EntriesOf, TypeLen;
    var es := EntriesOf(d, v);
    IndexOfType(d, t, base, v);
    PutNext(d, t, base, v);
    SumNext(d, t);
    EncodedSum(d, v);
    InitRefines(b, es, base, t, EntryOf(t, v).value, true);
  }

  /** After the first `k` initialisations the buffer holds their types once each, in order of first occurrence. */
  lemma {:induction false} InitEachPrefix(b: seq<byte>, base: Base, order: seq<ExtensionType>, v: Values, k: nat)
    requires k <= |order| && AllOfKind(order, base)
    requires AllZero(b) && SumTlvLen(Dedupe(order)) <= |b|
    ensures UNINITIALIZED !in Dedupe(order[..k])
    ensures InitEach(b, base, order[..k], v).Ok?
    ensures var b' := InitEach(b, base, order[..k], v).value;
            |b'| == |b| && Represents(b', EntriesOf(Dedupe(order[..k]), v))
  {
    hide Init, Represents, SumTlvLen, Encode, EntriesOf, TypeLen, AccountTypeOf;
    var done := order[..k];
    KindsOfPrefix(order, base, k);
    if k == 0 {
      EmptyRepresented(b, v);
    } else {
      InitEachPrefix(b, base, order, v, k - 1);
      KindsOfPrefix(order, base, k - 1);
      assert done[..k - 1] == order[..k - 1];
      var d, t := Dedupe(order[..k - 1]), order[k - 1];
      assert t in order;
      DedupeGrows(order, k);
      InitNext(InitEach(b, base, order[..k - 1], v).value, d, t, base, v);
    }
  }

  lemma KindsOfPrefix(order: seq<ExtensionType>, base: Base, k: nat)
    requires k <= |order| && AllOfKind(order, base)
    ensures AllOfKind(Dedupe(order[..k]), base) && UNINITIALIZED !in Dedupe(order[..k])
    ensures AccountTypeOf(UNINITIALIZED) != base.Type()
  {
    forall t | t in order[..k]
      ensures t in order
    {
    }
  }

  /**
   The whole initialisation: from a zeroed buffer of the size calculated for `ts`, initialising the same types in
   any order succeeds, every type then reads back its own value, and the length the buffer needs is the length
   that was calculated.
   */
  lemma AnyOrderFits(base: Base, ts: seq<ExtensionType>, order: seq<ExtensionType>, v: Values, len: nat)
    requires ts != [] && AllOfKind(ts, base) && AllSized(ts)
    requires forall t :: t in order <==> t in ts
    requires TryCalculateAccountLen(base, ts) == Ok(len)
    ensures len >= TLV_AT && InitEach(Zeros(len - TLV_AT), base, order, v).Ok?
    ensures var b := InitEach(Zeros(len - TLV_AT), base, order, v).value;
            && |b| == len - TLV_AT && TryGetAccountLen(b, base) == Ok(len)
            && forall t :: t in ts ==> GetExtensionBytes(b, base, t) == Ok(v(t))
  {
    hide Init, GetExtensionBytes, SumTlvLen, Dedupe, EntriesOf, InitEach, TryGetAccountLen, TypeLen, AccountTypeOf;
    SumIgnoresOrder(Dedupe(ts), Dedupe(order));
    var b := Zeros(len - TLV_AT);
    SameKinds(ts, order, base);
    InitEachPrefix(b, base, order, v, |order|);
    assert order[..|order|] == order;
    KindsOfPrefix(order, base, |order|);
    assert ts[0] in ts && ts[0] in order && Dedupe(order) != [];
    FullBuffer(InitEach(b, base, order, v).value, base, Dedupe(order), v, len);
  }

  lemma SameKinds(ts: seq<ExtensionType>, order: seq<ExtensionType>, base: Base)
    requires AllOfKind(ts, base) && forall t :: t in order <==> t in ts
    ensures AllOfKind(order, base)
  {
  }

  /** What a buffer holding one entry of each listed type gives back. */
  lemma FullBuffer(b: seq<byte>, base: Base, d: seq<ExtensionType>, v: Values, len: nat)
    requires d != [] && UNINITIALIZED !in d && AllOfKind(d, base)
    requires Represents(b, EntriesOf(d, v)) && len == AdjustLenForMultisig(SumTlvLen(d) + TLV_AT)
    ensures TryGetAccountLen(b, base) == Ok(len)
    ensures forall t :: t in d ==> GetExtensionBytes(b, base, t) == Ok(v(t))
  {
    hide GetExtensionBytes, SumTlvLen, EntriesOf, Scan, TypeLen, Represents, Encode;
    EncodedSum(d, v);
    RepresentsScan(b, EntriesOf(d, v));
    forall t | t in d
      ensures GetExtensionBytes(b, base, t) == Ok(v(t))
    {
      IndexOfType(d, t, base, v);
      ReadBack(b, EntriesOf(d, v), base, t);
    }
  }

  lemma EmptyRepresented(b: seq<byte>, v: Values)
    requires AllZero(b)
    ensures Represents(b, EntriesOf([], v))
  {
    assert EntriesOf([], v) == [] && Encode([]) == [];
    assert b[0..] == b;
  }
}
