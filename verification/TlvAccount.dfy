/**
 Accounts with extensions: how a whole data buffer divides into base state, padding, account type and
 extension entries, and the helpers that grow or shrink an account to store an extension
 (`unpack*`, `set_account_type`, `try_get_account_len`, `alloc_and_serialize*`).
 */
module TlvAccount {
  import opened Bytes
  import opened Common
  import opened ExtensionTypes
  import opened Tlv
  import opened TlvOps

  /** Position of the account-type byte and of the first extension entry. */
  const TYPE_AT: nat := ACCOUNT_LEN
  const TLV_AT: nat := BASE_ACCOUNT_AND_TYPE_LENGTH
  /** Where each base state keeps its initialisation flag. */
  const MINT_INITIALIZED_AT: nat := 45
  const ACCOUNT_STATE_AT: nat := 108

  function TypeCode(t: AccountType): byte {
    match t case Uninitialized => 0 case Mint => 1 case Account => 2
  }

  /** `is_initialized` of the base state in place. */
  predicate BaseInitialized(d: seq<byte>, base: Base)
    requires |d| >= base.Size()
  {
    if base.MintBase? then d[MINT_INITIALIZED_AT] != 0 else d[ACCOUNT_STATE_AT] != 0
  }

  /** `check_min_len_and_not_multisig` */
  predicate LengthFits(d: seq<byte>, base: Base) {
    |d| != MULTISIG_LEN && |d| >= base.Size()
  }

  /**
   `type_and_tlv_indices`: either the buffer is the base state alone, or there is zero padding up to the
   account-type byte and at least one byte behind it.
   */
  predicate LayoutFits(d: seq<byte>, base: Base)
    requires |d| >= base.Size()
  {
    |d| == base.Size() || (|d| > TLV_AT && AllZero(d[base.Size()..TYPE_AT]))
  }

  function TlvOf(d: seq<byte>): seq<byte> {
    if |d| > TLV_AT then d[TLV_AT..] else []
  }

  /** `PodStateWithExtensions::unpack`: the extension area, when the buffer holds an initialised base state. */
  function Unpack(d: seq<byte>, base: Base): Result<seq<byte>> {
    if !LengthFits(d, base) then Err(InvalidAccountData)
    else if !BaseInitialized(d, base) then Err(UninitializedAccount)
    else if !LayoutFits(d, base) then Err(InvalidAccountData)
    else if |d| > TLV_AT && d[TYPE_AT] != TypeCode(base.Type()) then Err(InvalidAccountData)
    else Ok(TlvOf(d))
  }

  /** `get_first_extension_type` */
  function FirstExtensionType(tlv: seq<byte>): Result<Option<ExtensionType>> {
    if |tlv| <= 2 then Ok(None)
    else
      var t :- TypeFromBytes(tlv[..2]);
      Ok(if t == UNINITIALIZED then None else Some(t))
  }

  /** `PodStateWithExtensionsMut::unpack_uninitialized` */
  function UnpackUninitialized(d: seq<byte>, base: Base): Result<seq<byte>> {
    if !LengthFits(d, base) then Err(InvalidAccountData)
    else if BaseInitialized(d, base) then Err(AlreadyInUse)
    else if !LayoutFits(d, base) then Err(InvalidAccountData)
    else if |d| > TLV_AT && d[TYPE_AT] != TypeCode(Uninitialized) then Err(InvalidAccountData)
    else
      var first :- FirstExtensionType(TlvOf(d));
      if first.Some? && AccountTypeOf(first.value) != base.Type() then Err(ExtensionBaseMismatch)
      else Ok(TlvOf(d))
  }

  /** `set_account_type`: the buffer afterwards. */
  function SetAccountType(d: seq<byte>, base: Base): Result<seq<byte>> {
    if !LengthFits(d, base) then Err(InvalidAccountData)
    else if base.AccountBase? && d[ACCOUNT_STATE_AT] == 0 then Err(InvalidAccountData)
    else if |d| == base.Size() || !LayoutFits(d, base) then Err(InvalidAccountData)
    else if d[TYPE_AT] == TypeCode(Uninitialized) then Ok(Overwritten(d, TYPE_AT, [TypeCode(base.Type())]))
    else if d[TYPE_AT] == TypeCode(base.Type()) then Ok(d)
    else Err(InvalidAccountData)
  }

  /** `try_get_account_len`: bytes the base state and its entries need. */
  function TryGetAccountLen(tlv: seq<byte>, base: Base): Result<nat> {
    var es :- Scan(tlv);
    Ok(if es == [] then base.Size() else AdjustLenForMultisig(|Encode(es)| + TLV_AT))
  }

  /** `try_get_new_account_len_for_extension_len` */
  function TryGetNewAccountLen(tlv: seq<byte>, base: Base, t: ExtensionType, length: nat): Result<nat> {
    var es :- Scan(tlv);
    var current := match GetExtensionBytes(tlv, base, t)
      case Ok(v) => AddTypeAndLength(|v|)
      case Err(_) => 0;
    var without := if current <= |Encode(es)| + TLV_AT then |Encode(es)| + TLV_AT - current else 0;
    Ok(AdjustLenForMultisig(without + AddTypeAndLength(length)))
  }

  /** `AccountInfo::realloc`: growth supplies zero bytes. */
  function Resized(d: seq<byte>, len: nat): (r: seq<byte>)
    ensures |r| == len
  {
    Resize(d, len)
  }

  // ------------------------------------------------------------------ storing an extension in an account

  /** Stores the value in the extension area of a buffer whose account type is already set. */
  function StoreInit(d: seq<byte>, base: Base, t: ExtensionType, value: seq<byte>, overwrite: bool): Result<seq<byte>> {
    var tlv :- Unpack(d, base);
    var (r, b) := Init(tlv, base, t, value, overwrite);
    if r.Err? then Err(r.error) else Ok(WithTlv(d, b))
  }

  /** `realloc_variable_len_extension` on the extension area. */
  function StoreRealloc(d: seq<byte>, base: Base, t: ExtensionType, value: seq<byte>): Result<seq<byte>>
    requires t != UNINITIALIZED
  {
    var tlv :- Unpack(d, base);
    var (n, b) := Realloc(tlv, t, |value|);
    if n.Err? then Err(n.error) else Ok(WithTlv(d, Overwritten(b, n.value + 4, value)))
  }

  function WithTlv(d: seq<byte>, tlv: seq<byte>): seq<byte> {
    if |d| > TLV_AT then d[..TLV_AT] + tlv else d
  }

  /** The account type is written only when the account had no room for one before. */
  function WithAccountType(d: seq<byte>, previousLen: nat, base: Base): Result<seq<byte>> {
    if previousLen <= ACCOUNT_LEN then SetAccountType(d, base) else Ok(d)
  }

  /** `alloc_and_serialize`: the account's data afterwards. */
  function AllocAndSerialize(d: seq<byte>, base: Base, t: ExtensionType, value: seq<byte>, overwrite: bool)
    : Result<seq<byte>>
  {
    var tlv :- Unpack(d, base);
    var newLen :- TryGetNewAccountLen(tlv, base, t, |value|);
    var grown := if newLen > |d| then Resized(d, newLen) else d;
    var typed :- WithAccountType(grown, |d|, base);
    StoreInit(typed, base, t, value, overwrite)
  }

  /** `alloc_and_serialize_variable_len_extension`: the account's data afterwards. */
  function AllocAndSerializeVariableLen(d: seq<byte>, base: Base, t: ExtensionType, value: seq<byte>, overwrite: bool)
    : Result<seq<byte>>
    requires t != UNINITIALIZED
  {
    var tlv :- Unpack(d, base);
    var newLen :- TryGetNewAccountLen(tlv, base, t, |value|);
    var present := GetExtensionBytes(tlv, base, t).Ok?;
    if present && !overwrite then Err(ExtensionAlreadyInitialized)
    else if |d| < newLen then
      var grown := Resized(d, newLen);
      if present then StoreRealloc(grown, base, t, value)
      else
        var typed :- WithAccountType(grown, |d|, base);
        StoreInit(typed, base, t, value, false)
    else
      var stored :- if present then StoreRealloc(d, base, t, value) else StoreInit(d, base, t, value, false);
      Ok(Resized(stored, newLen))
  }

  /** An initialised account whose extension area holds exactly the listed entries, then zeros. */
  ghost predicate Holds(d: seq<byte>, base: Base, es: seq<Entry>) {
    Unpack(d, base).Ok? && Represents(TlvOf(d), es)
  }

  /** Size of the list after storing a value of the given length under `t`. */
  function StoredLen(es: seq<Entry>, t: ExtensionType, length: nat): (n: nat)
    ensures n >= 4 + length
  {
    var i := IndexOf(es, t);
    if i < |es| then
      EncodeSplit(es, i);
      |Encode(es)| - |es[i].value| + length
    else |Encode(es)| + 4 + length
  }

  lemma PutLen(es: seq<Entry>, e: Entry)
    ensures |Encode(Put(es, e))| == StoredLen(es, e.ty, |e.value|)
  {
    var i := IndexOf(es, e.ty);
    if i < |es| {
      ReplacedLayout(es, i, e);
      EncodeSplit(es, i);
    } else {
      EncodeSnoc(es, e);
    }
  }

  /** The length an account is resized to is the one its entries will need. */
  lemma NewLenMeaning(tlv: seq<byte>, base: Base, es: seq<Entry>, t: ExtensionType, length: nat)
    requires Represents(tlv, es) && t != UNINITIALIZED
    ensures var r := TryGetNewAccountLen(tlv, base, t, length);
            var fits := AccountTypeOf(t) == base.Type() && SameKind(es[..IndexOf(es, t)], base.Type());
            && r.Ok? && r.value != MULTISIG_LEN && r.value >= TLV_AT + 4 + length
            && (fits ==> r.value == AdjustLenForMultisig(StoredLen(es, t, length) + TLV_AT))
            && (GetExtensionBytes(tlv, base, t).Ok? <==> fits && IndexOf(es, t) < |es|)
  {
    hide Find, Scan, Encode, GetExtensionBytes;
    RepresentsScan(tlv, es);
    var i := IndexOf(es, t);
    FindSlot(tlv, es, t, false);
    if AccountTypeOf(t) != base.Type() || !SameKind(es[..i], base.Type()) || i == |es| {
      NotFound(tlv, base, t);
    } else {
      ReadBack(tlv, es, base, t);
      SlotFields(tlv, es, i);
    }
  }

  lemma NotFound(b: seq<byte>, base: Base, t: ExtensionType)
    requires Find(b, t, false).Err? || AccountTypeOf(t) != base.Type()
    ensures GetExtensionBytes(b, base, t).Err?
  {
  }

  /** Growing an account that already has an extension area. */
  lemma GrownHolds(d: seq<byte>, base: Base, es: seq<Entry>, len: nat)
    requires Holds(d, base, es) && |d| > TLV_AT && len >= |d| && len != MULTISIG_LEN
    ensures Holds(Resized(d, len), base, es) && Resized(d, len)[..base.Size()] == d[..base.Size()]
  {
    hide Represents, Encode, Scan;
    var r := Resized(d, len);
    assert r == d + Zeros(len - |d|);
    assert r[base.Size()..TYPE_AT] == d[base.Size()..TYPE_AT];
    ZerosBehind(TlvOf(d), es, len - |d|);
    assert TlvOf(r) == TlvOf(d) + Zeros(len - |d|);
  }

  lemma ZerosBehind(b: seq<byte>, es: seq<Entry>, n: nat)
    requires Represents(b, es)
    ensures Represents(b + Zeros(n), es)
  {
    var k := |Encode(es)|;
    assert (b + Zeros(n))[..k] == b[..k];
    assert (b + Zeros(n))[k..] == b[k..] + Zeros(n);
  }

  /** Growing an account that was the base state alone, and writing its account type. */
  lemma FirstGrowthHolds(d: seq<byte>, base: Base, len: nat)
    requires Unpack(d, base).Ok? && |d| <= TLV_AT && len > TLV_AT && len != MULTISIG_LEN
    ensures |d| == base.Size()
    ensures var r := SetAccountType(Resized(d, len), base);
            r.Ok? && |r.value| == len && Holds(r.value, base, []) && r.value[..base.Size()] == d
  {
    var g := Resized(d, len);
    assert g == d + Zeros(len - |d|);
    assert g[TYPE_AT] == 0;
    var r := Overwritten(g, TYPE_AT, [TypeCode(base.Type())]);
    assert r[base.Size()..TYPE_AT] == g[base.Size()..TYPE_AT] == Zeros(TYPE_AT - base.Size());
    assert r[TLV_AT..] == g[TLV_AT..] == Zeros(len - TLV_AT);
    assert r[..base.Size()] == d;
    assert SetAccountType(g, base) == Ok(r);
    assert BaseInitialized(r, base);
    assert Encode([]) == [];
  }

  /** Putting another extension area of the same size into an account. */
  lemma WithTlvHolds(d: seq<byte>, base: Base, es: seq<Entry>, tlv: seq<byte>, es': seq<Entry>)
    requires Holds(d, base, es) && |d| > TLV_AT && |tlv| == |TlvOf(d)| && Represents(tlv, es')
    ensures var r := WithTlv(d, tlv);
            |r| == |d| && Holds(r, base, es') && r[..base.Size()] == d[..base.Size()]
  {
    var r := WithTlv(d, tlv);
    assert r[base.Size()..TYPE_AT] == d[base.Size()..TYPE_AT];
    assert TlvOf(r) == tlv;
  }

  /** Cutting an account down to a length that still holds its entries. */
  lemma ShrunkHolds(d: seq<byte>, base: Base, es: seq<Entry>, len: nat)
    requires Holds(d, base, es) && |d| > TLV_AT && TLV_AT < len <= |d| && len != MULTISIG_LEN
    requires |Encode(es)| + TLV_AT <= len
    ensures Holds(Resized(d, len), base, es) && Resized(d, len)[..base.Size()] == d[..base.Size()]
  {
    hide Encode;
    var r := Resized(d, len);
    assert r == d[..len];
    PrefixSlice(d, len, base.Size(), TYPE_AT);
    PrefixSlice(d, len, 0, base.Size());
    var b, k := TlvOf(d), |Encode(es)|;
    assert TlvOf(r) == b[..len - TLV_AT];
    assert b[..len - TLV_AT][..k] == b[..k];
    assert b[..len - TLV_AT][k..] == b[k..len - TLV_AT];
    assert forall i :: k <= i < len - TLV_AT ==> b[i] == b[k..][i - k];
  }

  /** Storing into an account with an extension area refines `Put`. */
  lemma StoreInitRefines(d: seq<byte>, base: Base, es: seq<Entry>, t: ExtensionType, value: seq<byte>, overwrite: bool)
    requires Holds(d, base, es) && |d| > TLV_AT && t != UNINITIALIZED
    ensures var r := StoreInit(d, base, t, value, overwrite);
            && (r.Ok? <==> CanAlloc(es, |d| - TLV_AT, base, t, |value|, overwrite))
            && (r.Ok? ==> |r.value| == |d| && Holds(r.value, base, Put(es, Entry(t, value)))
                          && r.value[..base.Size()] == d[..base.Size()])
  {
    hide Init, Represents, Unpack, Put, WithTlv;
    assert Unpack(d, base) == Ok(TlvOf(d)) && Represents(TlvOf(d), es) by { HeldUnpacks(d, base, es); }
    InitRefines(TlvOf(d), es, base, t, value, overwrite);
    var (r, b) := Init(TlvOf(d), base, t, value, overwrite);
    if r.Ok? {
      WithTlvHolds(d, base, es, b, Put(es, Entry(t, value)));
    }
  }

  lemma StoreReallocRefines(d: seq<byte>, base: Base, es: seq<Entry>, t: ExtensionType, value: seq<byte>)
    requires Holds(d, base, es) && |d| > TLV_AT && t != UNINITIALIZED
    ensures var r := StoreRealloc(d, base, t, value);
            && (r.Ok? <==> CanRealloc(es, |d| - TLV_AT, t, |value|))
            && (r.Ok? ==> |r.value| == |d| && Holds(r.value, base, Put(es, Entry(t, value)))
                          && r.value[..base.Size()] == d[..base.Size()])
  {
    hide Realloc, Represents, Unpack, WithTlv, Encode, Put, Overwritten, Holds;
    HeldUnpacks(d, base, es);
    ReallocFills(TlvOf(d), es, t, value);
    var (r, b) := Realloc(TlvOf(d), t, |value|);
    if r.Ok? {
      WithTlvHolds(d, base, es, Overwritten(b, r.value + 4, value), Put(es, Entry(t, value)));
    }
  }

  /** Reallocation followed by writing the value leaves the list with the value in place of the old one. */
  lemma ReallocFills(b: seq<byte>, es: seq<Entry>, t: ExtensionType, value: seq<byte>)
    requires Represents(b, es) && t != UNINITIALIZED
    ensures var (r, b') := Realloc(b, t, |value|);
            && (r.Ok? <==> CanRealloc(es, |b|, t, |value|))
            && (r.Ok? ==> |b'| == |b| && r.value + 4 + |value| <= |b|
                          && Represents(Overwritten(b', r.value + 4, value), Put(es, Entry(t, value))))
  {
    hide Realloc, Represents, Encode, Resize, Overwritten, IndexOf;
    ReallocRefines(b, es, t, |value|);
    var (r, b') := Realloc(b, t, |value|);
    if r.Ok? {
      var i := IndexOf(es, t);
      var e1 := Entry(t, Resize(es[i].value, |value|));
      FillEntry(b', es, es[i := e1], i, Entry(t, value));
    }
  }

  /** Writing a value into an entry that already has its length. */
  lemma FillEntry(b: seq<byte>, es: seq<Entry>, es1: seq<Entry>, i: nat, e: Entry)
    requires i < |es| && |es1| == |es| && Represents(b, es1) && es1 == es[i := es1[i]]
    requires es1[i].ty == e.ty && |es1[i].value| == |e.value|
    ensures |Encode(es[..i])| + 4 + |e.value| <= |b|
    ensures Represents(Overwritten(b, |Encode(es[..i])| + 4, e.value), es[i := e])
  {
    hide Encode, Represents, Overwritten, EncodeEntry;
    assert es1[..i] == es[..i] && es1[i := e] == es[i := e];
    var n := |Encode(es[..i])|;
    HeaderAt(b, es1, i, e);
    ReplaceEntry(b, es1, i, e);
    OverwrittenSame(b, n, Le16(e.ty) + Le16(|e.value|));
    OverwrittenTwice(b, n, Le16(e.ty) + Le16(|e.value|), e.value);
  }

  /** The type and length in front of a value that is about to be written. */
  lemma HeaderAt(b: seq<byte>, es: seq<Entry>, i: nat, e: Entry)
    requires i < |es| && Represents(b, es) && es[i].ty == e.ty && |es[i].value| == |e.value|
    ensures var n := |Encode(es[..i])|;
            && n + 4 + |e.value| <= |b| && b[n..n + 4] == Le16(e.ty) + Le16(|e.value|)
            && EncodeEntry(e) == Le16(e.ty) + Le16(|e.value|) + e.value
  {
    hide Encode, Le16, FromLe16;
    SlotFields(b, es, i);
    var n := |Encode(es[..i])|;
    assert b[n..n + 4] == b[n..n + 2] + b[n + 2..n + 4];
    Le16RoundTrip(0, b[n + 2..n + 4]);
  }

  /** When a fixed-size extension can be stored in a well-formed account. */
  ghost predicate CanStore(es: seq<Entry>, base: Base, t: ExtensionType, length: nat, overwrite: bool) {
    var i := IndexOf(es, t);
    && AccountTypeOf(t) == base.Type() && SameKind(es[..i], base.Type()) && length <= U16_MAX
    && (i < |es| ==> overwrite && |es[i].value| == length)
  }

  /**
   `alloc_and_serialize` on a well-formed account: it succeeds exactly under `CanStore`; then the value reads
   back, every other entry and the base state are unchanged, the account is still well formed with its length
   never a multisig's, and it never shrinks.
   */
  lemma AllocAndSerializeRefines(d: seq<byte>, base: Base, es: seq<Entry>, t: ExtensionType, value: seq<byte>,
                                 overwrite: bool)
    requires Holds(d, base, es) && t != UNINITIALIZED
    ensures var r := AllocAndSerialize(d, base, t, value, overwrite);
            && (r.Ok? <==> CanStore(es, base, t, |value|, overwrite))
            && (r.Ok? ==>
                  && Holds(r.value, base, Put(es, Entry(t, value)))
                  && GetExtensionBytes(TlvOf(r.value), base, t) == Ok(value)
                  && r.value[..base.Size()] == d[..base.Size()]
                  && |r.value| != MULTISIG_LEN && |r.value| >= |d|)
  {
    hide Holds, StoreInit, GetExtensionBytes, Encode, SetAccountType, Resized, TryGetNewAccountLen, Put, StoredLen;
    HeldUnpacks(d, base, es);
    NewLenMeaning(TlvOf(d), base, es, t, |value|);
    var newLen := TryGetNewAccountLen(TlvOf(d), base, t, |value|).value;
    var grown := if newLen > |d| then Resized(d, newLen) else d;
    var typed := GrownAndTyped(d, base, es, newLen);
    StoreInitRefines(typed, base, es, t, value, overwrite);
    RoomForStore(es, base, t, |value|, overwrite, |typed|);
    var r := AllocAndSerialize(d, base, t, value, overwrite);
    if r.Ok? {
      StoredReadsBack(r.value, base, es, t, value);
    }
  }

  /** Before the store: the account has the new length if that is larger, and an account type. */
  lemma GrownAndTyped(d: seq<byte>, base: Base, es: seq<Entry>, newLen: nat) returns (typed: seq<byte>)
    requires Holds(d, base, es) && newLen > TLV_AT && newLen != MULTISIG_LEN
    ensures WithAccountType(if newLen > |d| then Resized(d, newLen) else d, |d|, base) == Ok(typed)
    ensures |typed| == (if newLen > |d| then newLen else |d|) && |typed| > TLV_AT
    ensures Holds(typed, base, es) && typed[..base.Size()] == d[..base.Size()]
  {
    hide Holds, SetAccountType, Resized;
    if |d| <= TLV_AT {
      BaseAlone(d, base, es);
      HeldUnpacks(d, base, es);
      FirstGrowthHolds(d, base, newLen);
      typed := SetAccountType(Resized(d, newLen), base).value;
    } else if newLen > |d| {
      GrownHolds(d, base, es, newLen);
      typed := Resized(d, newLen);
    } else {
      typed := d;
    }
  }

  /** An account at least as long as calculated has room for the value. */
  lemma RoomForStore(es: seq<Entry>, base: Base, t: ExtensionType, length: nat, overwrite: bool, len: nat)
    requires len > TLV_AT
    requires AccountTypeOf(t) == base.Type() && SameKind(es[..IndexOf(es, t)], base.Type()) ==>
               len >= AdjustLenForMultisig(StoredLen(es, t, length) + TLV_AT)
    ensures CanAlloc(es, len - TLV_AT, base, t, length, overwrite) <==> CanStore(es, base, t, length, overwrite)
  {
  }

  /**
   `alloc_and_serialize_variable_len_extension` on a well-formed account: it succeeds exactly when the kinds
   match, the value's length fits its field and an existing entry may be overwritten; then the value reads back,
   every other entry and the base state are unchanged, and the data length, grown or shrunk, is exactly what
   `try_get_account_len` asks for.
   */
  lemma AllocAndSerializeVariableLenRefines(d: seq<byte>, base: Base, es: seq<Entry>, t: ExtensionType,
                                            value: seq<byte>, overwrite: bool)
    requires Holds(d, base, es) && t != UNINITIALIZED
    ensures var r := AllocAndSerializeVariableLen(d, base, t, value, overwrite);
            var i := IndexOf(es, t);
            && (r.Ok? <==> AccountTypeOf(t) == base.Type() && SameKind(es[..i], base.Type()) && |value| <= U16_MAX
                           && (i < |es| ==> overwrite))
            && (r.Ok? ==>
                  && Holds(r.value, base, Put(es, Entry(t, value)))
                  && GetExtensionBytes(TlvOf(r.value), base, t) == Ok(value)
                  && r.value[..base.Size()] == d[..base.Size()]
                  && |r.value| != MULTISIG_LEN
                  && TryGetAccountLen(TlvOf(r.value), base) == Ok(|r.value|))
  {
    hide Holds, StoreInit, StoreRealloc, GetExtensionBytes, Encode, WithAccountType, Resized,
         TryGetNewAccountLen, TryGetAccountLen, Put, StoredLen, Unpack;
    HeldUnpacks(d, base, es);
    NewLenMeaning(TlvOf(d), base, es, t, |value|);
    var newLen := TryGetNewAccountLen(TlvOf(d), base, t, |value|).value;
    var i := IndexOf(es, t);
    var r := AllocAndSerializeVariableLen(d, base, t, value, overwrite);
    if !(GetExtensionBytes(TlvOf(d), base, t).Ok? && !overwrite) {
      var stored := StoredVariableLen(d, base, es, t, value, newLen);
      if stored.Ok? {
        PutLen(es, Entry(t, value));
        PutIndex(es, Entry(t, value));
        LenOfStored(stored.value, base, Put(es, Entry(t, value)), newLen);
        StoredReadsBack(r.value, base, es, t, value);
      }
    }
  }

  /** The account before it is cut to its final length. */
  lemma StoredVariableLen(d: seq<byte>, base: Base, es: seq<Entry>, t: ExtensionType, value: seq<byte>, newLen: nat)
    returns (r: Result<seq<byte>>)
    requires Holds(d, base, es) && t != UNINITIALIZED
    requires TryGetNewAccountLen(TlvOf(d), base, t, |value|) == Ok(newLen)
    ensures var i := IndexOf(es, t);
            var fits := AccountTypeOf(t) == base.Type() && SameKind(es[..i], base.Type());
            var present := fits && i < |es|;
            var len := if |d| < newLen then newLen else |d|;
            && (r.Ok? <==> fits && |value| <= U16_MAX)
            && (r.Ok? ==> |r.value| == len && Holds(r.value, base, Put(es, Entry(t, value)))
                          && r.value[..base.Size()] == d[..base.Size()])
            && forall overwrite :: (present ==> overwrite) ==>
                 AllocAndSerializeVariableLen(d, base, t, value, overwrite) ==
                   match r case Err(x) => Err(x) case Ok(s) => Ok(Resized(s, newLen))
  {
    hide Holds, StoreInit, StoreRealloc, GetExtensionBytes, Encode, Resized, SetAccountType,
         TryGetNewAccountLen, Put, StoredLen, Unpack;
    HeldUnpacks(d, base, es);
    NewLenMeaning(TlvOf(d), base, es, t, |value|);
    var typed := GrownAndTyped(d, base, es, newLen);
    RoomForStore(es, base, t, |value|, false, |typed|);
    if GetExtensionBytes(TlvOf(d), base, t).Ok? {
      RoomForRealloc(es, base, t, |value|, |typed|);
      BaseAloneEmpty(d, base, es);
      StoreReallocRefines(typed, base, es, t, value);
      r := StoreRealloc(typed, base, t, value);
    } else {
      StoreInitRefines(typed, base, es, t, value, false);
      r := StoreInit(typed, base, t, value, false);
    }
    if r.Ok? { ResizedSame(r.value); }
  }

  lemma ResizedSame(d: seq<byte>)
    ensures Resized(d, |d|) == d
  {
  }

  lemma BaseAloneEmpty(d: seq<byte>, base: Base, es: seq<Entry>)
    requires Holds(d, base, es) && es != []
    ensures |d| > TLV_AT
  {
    if |d| <= TLV_AT { BaseAlone(d, base, es); }
  }

  lemma RoomForRealloc(es: seq<Entry>, base: Base, t: ExtensionType, length: nat, len: nat)
    requires len > TLV_AT
    requires AccountTypeOf(t) == base.Type() && SameKind(es[..IndexOf(es, t)], base.Type()) ==>
               len >= AdjustLenForMultisig(StoredLen(es, t, length) + TLV_AT)
    requires AccountTypeOf(t) == base.Type() && SameKind(es[..IndexOf(es, t)], base.Type()) && IndexOf(es, t) < |es|
    ensures CanRealloc(es, len - TLV_AT, t, length) <==> length <= U16_MAX
  {
  }

  lemma EncodeNotEmpty(es: seq<Entry>)
    requires es != []
    ensures |Encode(es)| > 0
  {
  }

  /** Cutting the stored account to the calculated length leaves it well formed, at its own required length. */
  lemma LenOfStored(d: seq<byte>, base: Base, es: seq<Entry>, newLen: nat)
    requires Holds(d, base, es) && |d| > TLV_AT && es != []
    requires newLen <= |d| && newLen == AdjustLenForMultisig(|Encode(es)| + TLV_AT)
    ensures Holds(Resized(d, newLen), base, es) && Resized(d, newLen)[..base.Size()] == d[..base.Size()]
    ensures TryGetAccountLen(TlvOf(Resized(d, newLen)), base) == Ok(newLen)
  {
    hide Resized, Scan, Encode, Unpack;
    EncodedFits(d, base, es);
    EncodeNotEmpty(es);
    ShrunkHolds(d, base, es, newLen);
    HeldUnpacks(Resized(d, newLen), base, es);
  }

  lemma HeldUnpacks(d: seq<byte>, base: Base, es: seq<Entry>)
    requires Holds(d, base, es)
    ensures Unpack(d, base) == Ok(TlvOf(d)) && Represents(TlvOf(d), es) && Scan(TlvOf(d)) == Ok(es)
    ensures |d| != MULTISIG_LEN && base.Size() <= |d|
  {
    RepresentsScan(TlvOf(d), es);
  }

  lemma BaseAlone(d: seq<byte>, base: Base, es: seq<Entry>)
    requires Holds(d, base, es) && |d| <= TLV_AT
    ensures |d| == base.Size() && es == []
  {
    assert Encode(es) == [];
  }

  lemma EncodedFits(d: seq<byte>, base: Base, es: seq<Entry>)
    requires Holds(d, base, es) && |d| > TLV_AT
    ensures |Encode(es)| + TLV_AT <= |d|
  {
  }

  lemma PrefixSlice(d: seq<byte>, len: nat, i: nat, j: nat)
    requires i <= j <= len <= |d|
    ensures d[..len][i..j] == d[i..j]
  {
  }

  /** After a store, the stored type is found again, with its new value. */
  lemma StoredReadsBack(d: seq<byte>, base: Base, es: seq<Entry>, t: ExtensionType, value: seq<byte>)
    requires t != UNINITIALIZED && |value| <= U16_MAX && AccountTypeOf(t) == base.Type()
    requires SameKind(es[..IndexOf(es, t)], base.Type())
    requires Holds(d, base, Put(es, Entry(t, value)))
    ensures GetExtensionBytes(TlvOf(d), base, t) == Ok(value)
    ensures |d| != MULTISIG_LEN
  {
    var e := Entry(t, value);
    PutIndex(es, e);
    var es' := Put(es, e);
    var i := IndexOf(es, t);
    assert es'[..i] == es[..i];
    RepresentsScan(TlvOf(d), es');
    ReadBack(TlvOf(d), es', base, t);
  }

  lemma PutIndex(es: seq<Entry>, e: Entry)
    ensures var es' := Put(es, e);
            IndexOf(es', e.ty) == IndexOf(es, e.ty) < |es'| && es'[IndexOf(es, e.ty)] == e
  {
    var es', i := Put(es, e), IndexOf(es, e.ty);
    assert es'[i] == e;
    assert forall j :: 0 <= j < i ==> es'[j] == es[j];
  }

  /** The data buffer of one account, which the runtime lets the program resize. */
  class AccountInfo {
    var data: array<byte>

    constructor (d: array<byte>)
      ensures data == d
    {
      data := d;
    }

    method Realloc(len: nat)
      modifies this
      ensures fresh(data) && data[..] == Resized(old(data[..]), len)
    {
      var d := new byte[len](i => 0);
      var n := if len < data.Length then len else data.Length;
      forall k | 0 <= k < n {
        d[k] := data[k];
      }
      data := d;
    }
  }

  method SetAccountTypeInPlace(a: array<byte>, base: Base) returns (r: Result<()>)
    modifies a
    ensures match SetAccountType(old(a[..]), base)
            case Err(x) => r == Err(x) && a[..] == old(a[..])
            case Ok(d) => r.Ok? && a[..] == d
  {
    if !LengthFits(a[..], base) || (base.AccountBase? && a[ACCOUNT_STATE_AT] == 0)
       || a.Length == base.Size() || !LayoutFits(a[..], base) {
      return Err(InvalidAccountData);
    }
    if a[TYPE_AT] == TypeCode(Uninitialized) {
      Write(a, TYPE_AT, [TypeCode(base.Type())]);
    } else if a[TYPE_AT] != TypeCode(base.Type()) {
      return Err(InvalidAccountData);
    }
    r := Ok(());
  }

  /** Unpacks the account and stores the value in its extension area. */
  method StoreInitInPlace(a: array<byte>, base: Base, t: ExtensionType, value: seq<byte>, overwrite: bool)
    returns (r: Result<()>)
    modifies a
    ensures match StoreInit(old(a[..]), base, t, value, overwrite)
            case Err(x) => r == Err(x)
            case Ok(d) => r.Ok? && a[..] == d
  {
    hide Init, Find, LayoutFits, BaseInitialized;
    ghost var d := a[..];
    var tlv :- Unpack(a[..], base);
    if a.Length > TLV_AT {
      assert a[TLV_AT..] == d[TLV_AT..] == tlv;
      r := InitInPlace(a, TLV_AT, base, t, value, overwrite);
      assert a[..] == a[..TLV_AT] + a[TLV_AT..];
      assert a[..TLV_AT] == d[..TLV_AT];
    } else {
      EmptyAreaFails(base, t, value, overwrite);
      r := Err(Init([], base, t, value, overwrite).0.error);
      assert tlv == [];
    }
  }

  lemma EmptyAreaFails(base: Base, t: ExtensionType, value: seq<byte>, overwrite: bool)
    ensures Init([], base, t, value, overwrite).0.Err?
  {
  }

  method AllocAndSerializeInPlace(info: AccountInfo, base: Base, t: ExtensionType, value: seq<byte>, overwrite: bool)
    returns (r: Result<()>)
    modifies info, info.data
    ensures match AllocAndSerialize(old(info.data[..]), base, t, value, overwrite)
            case Err(x) => r == Err(x)
            case Ok(d) => r.Ok? && info.data[..] == d
  {
    hide Unpack, TryGetNewAccountLen, SetAccountType, StoreInit, Resized;
    var previousLen := info.data.Length;
    var tlv :- Unpack(info.data[..], base);
    var newLen :- TryGetNewAccountLen(tlv, base, t, |value|);
    if newLen > previousLen {
      info.Realloc(newLen);
    }
    if previousLen <= ACCOUNT_LEN {
      var ok := SetAccountTypeInPlace(info.data, base);
      if ok.Err? {
        return Err(ok.error);
      }
    }
    r := StoreInitInPlace(info.data, base, t, value, overwrite);
  }

  method StoreReallocInPlace(a: array<byte>, base: Base, t: ExtensionType, value: seq<byte>) returns (r: Result<()>)
    requires t != UNINITIALIZED
    modifies a
    ensures match StoreRealloc(old(a[..]), base, t, value)
            case Err(x) => r == Err(x)
            case Ok(d) => r.Ok? && a[..] == d
  {
    hide Realloc, Find, LayoutFits, BaseInitialized, Overwritten;
    ghost var d := a[..];
    var tlv :- Unpack(a[..], base);
    if a.Length > TLV_AT {
      assert a[TLV_AT..] == d[TLV_AT..];
      var n := ReallocInPlace(a, TLV_AT, t, |value|);
      if n.Err? {
        return Err(n.error);
      }
      WriteAfter(a, TLV_AT, n.value + 4, value);
      assert a[..] == a[..TLV_AT] + a[TLV_AT..];
      assert a[..TLV_AT] == d[..TLV_AT];
      r := Ok(());
    } else {
      EmptyAreaReallocFails(t, |value|);
      r := Err(Realloc([], t, |value|).0.error);
    }
  }

  lemma EmptyAreaReallocFails(t: ExtensionType, length: nat)
    requires t != UNINITIALIZED
    ensures Realloc([], t, length).0.Err?
  {
  }

  method AllocAndSerializeVariableLenInPlace(info: AccountInfo, base: Base, t: ExtensionType, value: seq<byte>,
                                             overwrite: bool) returns (r: Result<()>)
    requires t != UNINITIALIZED
    modifies info, info.data
    ensures match AllocAndSerializeVariableLen(old(info.data[..]), base, t, value, overwrite)
            case Err(x) => r == Err(x)
            case Ok(d) => r.Ok? && info.data[..] == d
  {
    hide Unpack, TryGetNewAccountLen, SetAccountType, StoreInit, StoreRealloc, Resized, GetExtensionBytes;
    var previousLen := info.data.Length;
    var tlv :- Unpack(info.data[..], base);
    var newLen :- TryGetNewAccountLen(tlv, base, t, |value|);
    var alreadyExists := GetExtensionBytes(tlv, base, t).Ok?;
    if alreadyExists && !overwrite {
      return Err(ExtensionAlreadyInitialized);
    }
    if previousLen < newLen {
      // the account grows first, then the entry, then the value is written
      info.Realloc(newLen);
      if alreadyExists {
        r := StoreReallocInPlace(info.data, base, t, value);
      } else {
        if previousLen <= ACCOUNT_LEN {
          var ok := SetAccountTypeInPlace(info.data, base);
          if ok.Err? {
            return Err(ok.error);
          }
        }
        r := StoreInitInPlace(info.data, base, t, value, false);
      }
    } else {
      // the other way round: the value, the entry, and last the account
      if alreadyExists {
        r := StoreReallocInPlace(info.data, base, t, value);
      } else {
        r := StoreInitInPlace(info.data, base, t, value, false);
      }
      if r.Ok? {
        if previousLen - newLen > 0 {
          info.Realloc(newLen);
        } else {
          ResizedSame(info.data[..]);
        }
      }
    }
  }
}
