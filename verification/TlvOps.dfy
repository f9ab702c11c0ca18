/**
 The in-place operations on the extension buffer (`alloc`, `realloc`, `init_extension` and their
 variable-length forms), each proved against a function on byte sequences, and each such function proved
 to refine an operation on the list of entries.

 The extension area is the part of an account's data from position `start` on.
 */
module TlvOps {
  import opened Bytes
  import opened Common
  import opened ExtensionTypes
  import opened Tlv

  // ------------------------------------------------------------------ slices of a mutable buffer

  function Overwritten(s: seq<byte>, at: nat, bytes: seq<byte>): (r: seq<byte>)
    requires at + |bytes| <= |s|
    ensures |r| == |s|
  {
    s[..at] + bytes + s[at + |bytes|..]
  }

  /** `copy_from_slice` into a part of the buffer. */
  method Write(a: array<byte>, at: nat, bytes: seq<byte>)
    requires at + |bytes| <= a.Length
    modifies a
    ensures a[..] == Overwritten(old(a[..]), at, bytes)
  {
    forall k | 0 <= k < |bytes| {
      a[at + k] := bytes[k];
    }
    forall k | 0 <= k < a.Length
      ensures a[k] == Overwritten(old(a[..]), at, bytes)[k]
    {
      if at <= k < at + |bytes| {
        assert a[at + (k - at)] == bytes[k - at];
      }
    }
  }

  lemma OverwrittenAfter(s: seq<byte>, start: nat, at: nat, bytes: seq<byte>)
    requires start + at + |bytes| <= |s|
    ensures Overwritten(s, start + at, bytes)[..start] == s[..start]
    ensures Overwritten(s, start + at, bytes)[start..] == Overwritten(s[start..], at, bytes)
  {
  }

  lemma OverwrittenKeeps(s: seq<byte>, at: nat, bytes: seq<byte>, i: nat, j: nat)
    requires at + |bytes| <= i <= j <= |s|
    ensures Overwritten(s, at, bytes)[i..j] == s[i..j]
  {
  }

  lemma OverwrittenTwice(s: seq<byte>, at: nat, xs: seq<byte>, ys: seq<byte>)
    requires at + |xs| + |ys| <= |s|
    ensures Overwritten(Overwritten(s, at, xs), at + |xs|, ys) == Overwritten(s, at, xs + ys)
  {
  }

  lemma OverwrittenMiddle(p: seq<byte>, x: seq<byte>, y: seq<byte>, q: seq<byte>)
    requires |x| == |y|
    ensures Overwritten(p + x + q, |p|, y) == p + y + q
  {
  }

  lemma OverwrittenSame(b: seq<byte>, n: nat, x: seq<byte>)
    requires n + |x| <= |b| && b[n..n + |x|] == x
    ensures Overwritten(b, n, x) == b
  {
  }

  method WriteAfter(a: array<byte>, start: nat, at: nat, bytes: seq<byte>)
    requires start + at + |bytes| <= a.Length
    modifies a
    ensures a[..start] == old(a[..start])
    ensures a[start..] == Overwritten(old(a[start..]), at, bytes)
  {
    ghost var s := a[..];
    Write(a, start + at, bytes);
    OverwrittenAfter(s, start, at, bytes);
    assert a[start..] == a[..][start..] && a[..start] == a[..][..start];
  }

  method Read(a: array<byte>, start: nat, i: nat, j: nat) returns (s: seq<byte>)
    requires start <= a.Length && i <= j <= a.Length - start
    ensures s == a[start..][i..j]
  {
    s := a[start + i..start + j];
  }

  // ------------------------------------------------------------------ where an operation lands

  /** The slot a search must land on, read off the list and the buffer's size. */
  ghost function SlotOf(es: seq<Entry>, size: int, t: ExtensionType, init: bool): Result<nat> {
    var i := IndexOf(es, t);
    if !SameKind(es[..i], AccountTypeOf(t)) then Err(ExtensionTypeMismatch)
    else if i < |es| then Ok(|Encode(es[..i])|)
    else if size < |Encode(es)| + 4 then Err(InvalidAccountData)
    else if init then Ok(|Encode(es)|)
    else Err(ExtensionNotFound)
  }

  lemma FindSlot(b: seq<byte>, es: seq<Entry>, t: ExtensionType, init: bool)
    requires Scan(b) == Ok(es) && t != UNINITIALIZED
    ensures |Encode(es)| <= |b|
    ensures Find(b, t, init) == SlotOf(es, |b|, t, init)
  {
    ScanSound(b);
    FindRefines(b, es, t, init);
    FindInListMeaning(es, |b| - |Encode(es)|, t, init);
    assert es[..|es|] == es;
  }

  /** The bytes in front of, in and behind entry `i`. */
  lemma EntryParts(b: seq<byte>, es: seq<Entry>, i: nat) returns (front: seq<byte>, back: seq<byte>)
    requires Encode(es) <= b && i < |es|
    ensures front == Encode(es[..i]) && back == Encode(es[i + 1..]) + b[|Encode(es)|..]
    ensures b == front + EncodeEntry(es[i]) + back
  {
    EncodeSplit(es, i);
    front, back := Encode(es[..i]), Encode(es[i + 1..]) + b[|Encode(es)|..];
    assert b == Encode(es) + b[|Encode(es)|..];
  }

  /** Reading the type and length fields of an entry laid out between two byte strings. */
  lemma EntryFields(front: seq<byte>, e: Entry, back: seq<byte>)
    ensures var b, n := front + EncodeEntry(e) + back, |front|;
            && b[n..n + 2] == Le16(e.ty) && TypeFromBytes(b[n..n + 2]) == Ok(e.ty)
            && FromLe16(b[n + 2..n + 4]) == |e.value| && b[n + 4..n + 4 + |e.value|] == e.value
  {
    var b, n := front + EncodeEntry(e) + back, |front|;
    EntryAtFront(e, back);
    var rest := EncodeEntry(e) + back;
    assert b == front + rest;
    assert b[n..n + 2] == rest[..2] && b[n + 2..n + 4] == rest[2..4];
    assert b[n + 4..n + 4 + |e.value|] == rest[4..4 + |e.value|];
  }

  lemma SlotFields(b: seq<byte>, es: seq<Entry>, i: nat)
    requires Encode(es) <= b && i < |es|
    ensures var n := |Encode(es[..i])|;
            && n + 4 + |es[i].value| <= |Encode(es)|
            && b[n..n + 2] == Le16(es[i].ty) && TypeFromBytes(b[n..n + 2]) == Ok(es[i].ty)
            && FromLe16(b[n + 2..n + 4]) == |es[i].value| && b[n + 4..n + 4 + |es[i].value|] == es[i].value
  {
    var front, back := EntryParts(b, es, i);
    EncodeSplit(es, i);
    EntryFields(front, es[i], back);
  }

  lemma FreeSlotFields(b: seq<byte>, es: seq<Entry>)
    requires Represents(b, es) && |Encode(es)| + 4 <= |b|
    ensures var n := |Encode(es)|;
            && b[n..n + 2] == [0, 0] && TypeFromBytes(b[n..n + 2]) == Ok(UNINITIALIZED)
  {
    var n := |Encode(es)|;
    assert b[n] == b[n..][0] && b[n + 1] == b[n..][1];
  }

  // ------------------------------------------------------------------ alloc

  /**
   `alloc`: the offset of the entry now holding room for `length` bytes of type `t`, and the buffer
   afterwards. A length that does not fit in `u16` is only noticed after the type was written.
   */
  function Alloc(b: seq<byte>, base: Base, t: ExtensionType, length: nat, overwrite: bool)
    : (r: (Result<nat>, seq<byte>))
    ensures |r.1| == |b|
    ensures r.0.Ok? ==> r.0.value + 4 + length <= |b|
  {
    if AccountTypeOf(t) != base.Type() then (Err(InvalidAccountData), b)
    else match Find(b, t, true)
      case Err(x) => (Err(x), b)
      case Ok(n) => AllocAt(b, n, t, length, overwrite)
  }

  function AllocAt(b: seq<byte>, n: nat, t: ExtensionType, length: nat, overwrite: bool): (r: (Result<nat>, seq<byte>))
    requires n + 4 <= |b|
    ensures |r.1| == |b|
    ensures r.0.Ok? ==> r.0.value + 4 + length <= |b|
  {
    if |b| - n < AddTypeAndLength(length) then (Err(InvalidAccountData), b)
    else match TypeFromBytes(b[n..n + 2])
      case Err(x) => (Err(x), b)
      case Ok(ty) =>
        if ty != UNINITIALIZED && !overwrite then (Err(ExtensionAlreadyInitialized), b)
        else if overwrite && ty == t && FromLe16(b[n + 2..n + 4]) != length then
          (Err(InvalidLengthForAlloc), Overwritten(b, n, Le16(t)))
        else if length > U16_MAX then (Err(AccountDataTooSmall), Overwritten(b, n, Le16(t)))
        else (Ok(n), Overwritten(b, n, Le16(t) + Le16(length)))
  }

  method AllocInPlace(a: array<byte>, start: nat, base: Base, t: ExtensionType, length: nat, overwrite: bool)
    returns (r: Result<nat>)
    requires start <= a.Length
    modifies a
    ensures a[..start] == old(a[..start])
    ensures (r, a[start..]) == Alloc(old(a[start..]), base, t, length, overwrite)
  {
    hide Find, Overwritten, AccountTypeOf;
    ghost var b := a[start..];
    if AccountTypeOf(t) != base.Type() {
      return Err(InvalidAccountData);
    }
    var n :- GetExtensionIndices(a[start..], t, true);
    if a.Length - start - n < AddTypeAndLength(length) {
      return Err(InvalidAccountData);
    }
    var atType := Read(a, start, n, n + 2);
    var ty :- TypeFromBytes(atType);
    if ty == UNINITIALIZED || overwrite {
      WriteAfter(a, start, n, Le16(t));
      OverwrittenKeeps(b, n, Le16(t), n + 2, n + 4);
      var atLength := Read(a, start, n + 2, n + 4);
      if overwrite && ty == t && FromLe16(atLength) != length {
        return Err(InvalidLengthForAlloc);
      }
      if length > U16_MAX {
        return Err(AccountDataTooSmall);
      }
      WriteAfter(a, start, n + 2, Le16(length));
      OverwrittenTwice(b, n, Le16(t), Le16(length));
      r := Ok(n);
    } else {
      r := Err(ExtensionAlreadyInitialized);
    }
  }

  /** What decides an allocation on a well-formed buffer. */
  ghost predicate CanAlloc(es: seq<Entry>, size: nat, base: Base, t: ExtensionType, length: nat, overwrite: bool) {
    var i := IndexOf(es, t);
    && AccountTypeOf(t) == base.Type() && SameKind(es[..i], base.Type()) && length <= U16_MAX
    && if i < |es| then overwrite && |es[i].value| == length else |Encode(es)| + 4 + length <= size
  }

  /** The one failure that is noticed too late: a free slot, enough room, and a length beyond `u16`. */
  ghost predicate TypeWrittenInVain(es: seq<Entry>, size: nat, base: Base, t: ExtensionType, length: nat) {
    && AccountTypeOf(t) == base.Type() && SameKind(es, base.Type()) && IndexOf(es, t) == |es|
    && |Encode(es)| + 4 + length <= size && length > U16_MAX
  }

  /**
   Allocation on a well-formed buffer: it succeeds exactly under `CanAlloc`, in the slot of the existing entry
   or the free slot, and a failure leaves the buffer as it was, except exactly under `TypeWrittenInVain`.
   */
  lemma AllocMeaning(b: seq<byte>, es: seq<Entry>, base: Base, t: ExtensionType, length: nat, overwrite: bool)
    requires Represents(b, es) && t != UNINITIALIZED
    ensures var (r, b') := Alloc(b, base, t, length, overwrite);
            var n := |Encode(es[..IndexOf(es, t)])|;
            && (r.Ok? <==> CanAlloc(es, |b|, base, t, length, overwrite))
            && (r.Ok? ==> r.value == n && b' == Overwritten(b, n, Le16(t) + Le16(length)))
            && (r.Err? ==> (b' == b <==> !TypeWrittenInVain(es, |b|, base, t, length)))
  {
    var i := IndexOf(es, t);
    assert es[..|es|] == es;
    if AccountTypeOf(t) == base.Type() {
      RepresentsScan(b, es);
      FindSlot(b, es, t, true);
      if Find(b, t, true).Ok? {
        if i < |es| {
          AllocOverEntry(b, es, t, length, overwrite);
        } else {
          FreeSlotFields(b, es);
          AllocFree(b, |Encode(es)|, t, length, overwrite);
        }
      }
    }
  }

  lemma AllocOverEntry(b: seq<byte>, es: seq<Entry>, t: ExtensionType, length: nat, overwrite: bool)
    requires Encode(es) <= b && IndexOf(es, t) < |es| && t != UNINITIALIZED
    ensures var i := IndexOf(es, t);
            var n := |Encode(es[..i])|;
            && n + 4 + |es[i].value| <= |b|
            && var (r, b') := AllocAt(b, n, t, length, overwrite);
               && (r.Ok? <==> overwrite && |es[i].value| == length)
               && (r.Ok? ==> r.value == n && b' == Overwritten(b, n, Le16(t) + Le16(length)))
               && (r.Err? ==> b' == b)
  {
    hide Encode, IndexOf, Le16, FromLe16, TypeFromBytes, Overwritten;
    var i := IndexOf(es, t);
    SlotFields(b, es, i);
    OverwrittenSame(b, |Encode(es[..i])|, Le16(t));
  }

  lemma AllocFree(b: seq<byte>, n: nat, t: ExtensionType, length: nat, overwrite: bool)
    requires n + 4 <= |b| && b[n..n + 2] == [0, 0] && t != UNINITIALIZED
    ensures var (r, b') := AllocAt(b, n, t, length, overwrite);
            && (r.Ok? <==> n + 4 + length <= |b| && length <= U16_MAX)
            && (r.Ok? ==> r.value == n && b' == Overwritten(b, n, Le16(t) + Le16(length)))
            && (r.Err? ==> (b' == b <==> !(n + 4 + length <= |b| && length > U16_MAX)))
  {
    assert b[n] == b[n..n + 2][0];
    assert Overwritten(b, n, Le16(t))[n] == t;
  }

  // ------------------------------------------------------------------ writing a whole entry

  /** The list after storing `e`: its first entry of that type replaced, or `e` added at the end. */
  function Put(es: seq<Entry>, e: Entry): seq<Entry> {
    var i := IndexOf(es, e.ty);
    if i < |es| then es[i := e] else es + [e]
  }

  /** `alloc` followed by writing the value (`init_extension`, `init_variable_len_extension`). */
  function Init(b: seq<byte>, base: Base, t: ExtensionType, value: seq<byte>, overwrite: bool)
    : (r: (Result<()>, seq<byte>))
    ensures |r.1| == |b|
  {
    var (n, b') := Alloc(b, base, t, |value|, overwrite);
    if n.Err? then (Err(n.error), b') else (Ok(()), Overwritten(b', n.value + 4, value))
  }

  method InitInPlace(a: array<byte>, start: nat, base: Base, t: ExtensionType, value: seq<byte>, overwrite: bool)
    returns (r: Result<()>)
    requires start <= a.Length
    modifies a
    ensures a[..start] == old(a[..start])
    ensures (r, a[start..]) == Init(old(a[start..]), base, t, value, overwrite)
  {
    var n := AllocInPlace(a, start, base, t, |value|, overwrite);
    if n.Err? {
      return Err(n.error);
    }
    WriteAfter(a, start, n.value + 4, value);
    r := Ok(());
  }

  /**
   Storing an extension refines `Put`: it succeeds exactly under `CanAlloc`; then the value is the entry's,
   every other entry keeps its bytes and its place, and what follows stays zero.
   */
  lemma InitRefines(b: seq<byte>, es: seq<Entry>, base: Base, t: ExtensionType, value: seq<byte>, overwrite: bool)
    requires Represents(b, es) && t != UNINITIALIZED
    ensures var (r, b') := Init(b, base, t, value, overwrite);
            && (r.Ok? <==> CanAlloc(es, |b|, base, t, |value|, overwrite))
            && (r.Ok? ==> Represents(b', Put(es, Entry(t, value))))
  {
    hide Alloc, Encode, IndexOf, Overwritten;
    AllocMeaning(b, es, base, t, |value|, overwrite);
    if CanAlloc(es, |b|, base, t, |value|, overwrite) {
      var i := IndexOf(es, t);
      var n := |Encode(es[..i])|;
      var e := Entry(t, value);
      OverwrittenTwice(b, n, Le16(t) + Le16(|value|), value);
      if i < |es| {
        ReplaceEntry(b, es, i, e);
      } else {
        assert es[..|es|] == es;
        AppendEntry(b, es, e);
      }
    }
  }

  lemma ReplaceEntry(b: seq<byte>, es: seq<Entry>, i: nat, e: Entry)
    requires Represents(b, es) && i < |es| && |e.value| == |es[i].value|
    ensures |Encode(es[..i])| + |EncodeEntry(e)| <= |b|
    ensures Represents(Overwritten(b, |Encode(es[..i])|, EncodeEntry(e)), es[i := e])
  {
    var front, back := EntryParts(b, es, i);
    OverwrittenMiddle(front, EncodeEntry(es[i]), EncodeEntry(e), back);
    ReplacedLayout(es, i, e);
    EncodeSplit(es, i);
    LayoutAndTail(front + EncodeEntry(e), Encode(es[i + 1..]), b[|Encode(es)|..], es[i := e]);
  }

  lemma ReplacedLayout(es: seq<Entry>, i: nat, e: Entry)
    requires i < |es|
    ensures Encode(es[i := e]) == Encode(es[..i]) + EncodeEntry(e) + Encode(es[i + 1..])
  {
    var es' := es[i := e];
    EncodeSplit(es', i);
    assert es'[..i] == es[..i] && es'[i + 1..] == es[i + 1..];
  }

  lemma LayoutAndTail(x: seq<byte>, y: seq<byte>, tail: seq<byte>, es: seq<Entry>)
    requires Encode(es) == x + y && AllZero(tail)
    ensures Represents(x + (y + tail), es)
  {
    assert x + (y + tail) == Encode(es) + tail;
  }

  lemma AppendEntry(b: seq<byte>, es: seq<Entry>, e: Entry)
    requires Represents(b, es) && |Encode(es)| + |EncodeEntry(e)| <= |b|
    ensures Represents(Overwritten(b, |Encode(es)|, EncodeEntry(e)), es + [e])
  {
    hide Encode, EncodeEntry;
    EncodeSnoc(es, e);
    var n, k := |Encode(es)|, |EncodeEntry(e)|;
    assert AllZero(b[n + k..]) by {
      assert b[n + k..] == b[n..][k..];
    }
  }

  // ------------------------------------------------------------------ realloc

  function Resize(v: seq<byte>, length: nat): (r: seq<byte>)
    ensures |r| == length
  {
    if length <= |v| then v[..length] else v + Zeros(length - |v|)
  }

  /** Both walks succeeding puts the entry found inside the used part. */
  lemma FoundInside(b: seq<byte>, es: seq<Entry>, n: nat, t: ExtensionType)
    requires t != UNINITIALIZED && Scan(b) == Ok(es) && Find(b, t, false) == Ok(n)
    ensures var i := IndexOf(es, t);
            i < |es| && SameKind(es[..i], AccountTypeOf(t)) && n == |Encode(es[..i])|
    ensures n + 4 + FromLe16(b[n + 2..n + 4]) <= |Encode(es)| <= |b|
  {
    FoundIsSlot(b, es, n, t);
    ScanSound(b);
    SlotFields(b, es, IndexOf(es, t));
  }

  lemma FoundIsSlot(b: seq<byte>, es: seq<Entry>, n: nat, t: ExtensionType)
    requires t != UNINITIALIZED && Scan(b) == Ok(es) && Find(b, t, false) == Ok(n)
    ensures var i := IndexOf(es, t);
            i < |es| && SameKind(es[..i], AccountTypeOf(t)) && n == |Encode(es[..i])|
  {
    FindSlot(b, es, t, false);
  }

  /**
   `realloc`: the entry's value cut or extended with zeros, the entries behind it moved, and the bytes freed
   at the end zeroed. The result is the entry's offset.
   */
  function Realloc(b: seq<byte>, t: ExtensionType, length: nat): (r: (Result<nat>, seq<byte>))
    requires t != UNINITIALIZED
    ensures |r.1| == |b|
    ensures r.0.Ok? ==> r.0.value + 4 + length <= |b|
  {
    match Find(b, t, false)
    case Err(x) => (Err(x), b)
    case Ok(n) =>
      match Scan(b)
      case Err(x) => (Err(x), b)
      case Ok(es) =>
        FoundInside(b, es, n, t);
        ReallocAt(b, n, FromLe16(b[n + 2..n + 4]), |Encode(es)|, length)
  }

  function ReallocAt(b: seq<byte>, n: nat, oldLen: nat, used: nat, length: nat): (r: (Result<nat>, seq<byte>))
    requires n + 4 + oldLen <= used <= |b|
    ensures |r.1| == |b|
    ensures r.0.Ok? ==> r.0.value + 4 + length <= |b|
  {
    if oldLen < length && used + (length - oldLen) > |b| then (Err(InvalidAccountData), b)
    else if length > U16_MAX then (Err(AccountDataTooSmall), b)
    else (Ok(n), Moved(b[..n + 2], b[n + 4..n + 4 + oldLen], b[n + 4 + oldLen..used], b[used..], length))
  }

  /** A buffer `head, length field, value, behind, tail` after its value got a new length. */
  function Moved(head: seq<byte>, value: seq<byte>, behind: seq<byte>, tail: seq<byte>, length: u16): (r: seq<byte>)
    requires length <= |value| + |tail|
    ensures |r| == |head| + 2 + |value| + |behind| + |tail|
  {
    head + Le16(length) + Resize(value, length) + behind
    + if length <= |value| then Zeros(|value| - length) + tail else tail[length - |value|..]
  }

  method ReallocInPlace(a: array<byte>, start: nat, t: ExtensionType, length: nat) returns (r: Result<nat>)
    requires start <= a.Length && t != UNINITIALIZED
    modifies a
    ensures a[..start] == old(a[..start])
    ensures (r, a[start..]) == Realloc(old(a[start..]), t, length)
  {
    hide Find, Scan, Encode, IndexOf, ReallocAt;
    ghost var b := a[start..];
    var n :- GetExtensionIndices(a[start..], t, false);
    var info :- GetTlvDataInfo(a[start..]);
    ghost var es := Scan(b).value;
    FoundInside(b, es, n, t);
    r := ReallocFound(a, start, n, info.1, length);
  }

  /** The part of `realloc` behind the two walks. */
  method ReallocFound(a: array<byte>, start: nat, n: nat, used: nat, length: nat) returns (r: Result<nat>)
    requires start <= a.Length && n + 4 <= used <= a.Length - start
    requires n + 4 + FromLe16(a[start..][n + 2..n + 4]) <= used
    modifies a
    ensures a[..start] == old(a[..start])
    ensures (r, a[start..]) ==
            ReallocAt(old(a[start..]), n, FromLe16(old(a[start..])[n + 2..n + 4]), used, length)
  {
    hide Moved, FromLe16;
    var field := Read(a, start, n + 2, n + 4);
    var oldLen := FromLe16(field);
    // checked first, so that the move below stays inside the buffer
    if oldLen < length {
      if used + (length - oldLen) > a.Length - start {
        return Err(InvalidAccountData);
      }
    }
    if length > U16_MAX {
      return Err(AccountDataTooSmall);
    }
    ghost var b := a[start..];
    Cut(b, n + 2, n + 4, n + 4 + oldLen, used);
    MoveInPlace(a, start, n, oldLen, used, length,
                b[..n + 2], b[n + 2..n + 4], b[n + 4..n + 4 + oldLen], b[n + 4 + oldLen..used], b[used..]);
    r := Ok(n);
  }

  /** The writes of `realloc`: the length, the move of the entries behind, and the zero fill. */
  method MoveInPlace(a: array<byte>, start: nat, n: nat, oldLen: nat, used: nat, length: u16,
                     ghost head: seq<byte>, ghost field: seq<byte>, ghost value: seq<byte>,
                     ghost behind: seq<byte>, ghost tail: seq<byte>)
    requires start <= a.Length && |head| == n + 2 && |field| == 2
    requires |value| == oldLen && n + 4 + oldLen + |behind| == used
    requires a[start..] == head + field + (value + behind + tail) && length <= |value| + |tail|
    modifies a
    ensures a[..start] == old(a[..start])
    ensures a[start..] == Moved(head, value, behind, tail, length)
  {
    hide *;
    ShiftInPlace(a, start, n, oldLen, used, length, head, field, value, behind, tail);
    if oldLen > length {
      WriteAfter(a, start, used - (oldLen - length), Zeros(oldLen - length));
      ShorterBytes(head, value, behind, tail, length);
    } else if oldLen < length {
      WriteAfter(a, start, n + 4 + oldLen, Zeros(length - oldLen));
      LongerBytes(head, value, behind, tail, length);
    } else {
      SameLengthBytes(head, value, behind, tail, length);
    }
  }

  /** The first two writes: the length field, and `copy_within` for what lies behind the value. */
  method ShiftInPlace(a: array<byte>, start: nat, n: nat, oldLen: nat, used: nat, length: u16,
                      ghost head: seq<byte>, ghost field: seq<byte>, ghost value: seq<byte>,
                      ghost behind: seq<byte>, ghost tail: seq<byte>)
    requires start <= a.Length && |head| == n + 2 && |field| == 2
    requires |value| == oldLen && n + 4 + oldLen + |behind| == used
    requires a[start..] == head + field + (value + behind + tail) && length <= |value| + |tail|
    modifies a
    ensures a[..start] == old(a[..start])
    ensures a[start..] == Shifted(head, value, behind, tail, length)
  {
    hide Moved, Overwritten;
    WriteAfter(a, start, n + 2, Le16(length));
    OverwrittenMiddle(head, field, Le16(length), value + behind + tail);
    InsideThird(head + Le16(length), value, behind, tail);
    var moving := Read(a, start, n + 4 + oldLen, used);
    WriteAfter(a, start, n + 4 + length, moving);
  }

  lemma InsideThird(front: seq<byte>, value: seq<byte>, behind: seq<byte>, tail: seq<byte>)
    ensures (front + (value + behind + tail))[|front| + |value|..|front| + |value| + |behind|] == behind
  {
  }

  /** A sequence is the concatenation of its parts between four cuts. */
  lemma Cut(b: seq<byte>, i: nat, j: nat, k: nat, l: nat)
    requires i <= j <= k <= l <= |b|
    ensures b == b[..i] + b[i..j] + (b[j..k] + b[k..l] + b[l..])
  {
  }

  /** The buffer after the first two writes. */
  ghost function Shifted(head: seq<byte>, value: seq<byte>, behind: seq<byte>, tail: seq<byte>,
                         length: u16): (r: seq<byte>)
    requires length <= |value| + |tail|
    ensures |r| == |head| + 2 + |value| + |behind| + |tail|
  {
    Overwritten(head + Le16(length) + (value + behind + tail), |head| + 2 + length, behind)
  }

  lemma ShorterBytes(head: seq<byte>, value: seq<byte>, behind: seq<byte>, tail: seq<byte>, length: u16)
    requires length < |value|
    ensures Overwritten(Shifted(head, value, behind, tail, length), |head| + 2 + length + |behind|,
                        Zeros(|value| - length))
            == Moved(head, value, behind, tail, length)
  {
    hide Overwritten;
    var front := head + Le16(length);
    var v0, v1 := value[..length], value[length..];
    var y, z := (v1 + behind)[..|behind|], (v1 + behind)[|behind|..];
    assert value == v0 + v1;
    Regroup5(front, v0, v1, behind, tail, y, z);
    OverwrittenMiddle(front + v0, y, behind, z + tail);
    Assoc2(front + v0 + behind, z, tail);
    OverwrittenMiddle(front + v0 + behind, z, Zeros(|value| - length), tail);
    Assoc2(front + v0 + behind, Zeros(|value| - length), tail);
  }

  lemma Regroup5(f: seq<byte>, v0: seq<byte>, v1: seq<byte>, g: seq<byte>, t: seq<byte>, y: seq<byte>, z: seq<byte>)
    requires y + z == v1 + g
    ensures f + (v0 + v1 + g + t) == f + v0 + y + (z + t)
  {
    Assoc2(v0, v1, g);
    Assoc2(v0, y, z);
    assert v0 + v1 + g + t == v0 + y + z + t;
    Assoc2(v0 + y, z, t);
    Assoc2(f, v0 + y, z + t);
    Assoc2(f, v0, y);
  }

  lemma LongerBytes(head: seq<byte>, value: seq<byte>, behind: seq<byte>, tail: seq<byte>, length: u16)
    requires |value| < length <= |value| + |tail|
    ensures Overwritten(Shifted(head, value, behind, tail, length), |head| + 2 + |value|, Zeros(length - |value|))
            == Moved(head, value, behind, tail, length)
  {
    hide Overwritten;
    var front := head + Le16(length);
    var d := length - |value|;
    var t0, rest := tail[..d], tail[d..];
    var y, z := (behind + t0)[..d], (behind + t0)[d..];
    assert tail == t0 + rest;
    Regroup4(front, value, behind, t0, rest, y, z);
    OverwrittenMiddle(front + value + y, z, behind, rest);
    Assoc3(front + value, y, behind, rest);
    OverwrittenMiddle(front + value, y, Zeros(d), behind + rest);
    Assoc3(front + value, Zeros(d), behind, rest);
    Assoc2(front, value, Zeros(d));
  }

  lemma Assoc2(a: seq<byte>, b: seq<byte>, c: seq<byte>)
    ensures a + b + c == a + (b + c)
  {
  }

  lemma Assoc3(a: seq<byte>, b: seq<byte>, c: seq<byte>, d: seq<byte>)
    ensures a + b + c + d == a + b + (c + d)
  {
    Assoc2(a + b, c, d);
  }

  lemma Regroup4(f: seq<byte>, v: seq<byte>, g: seq<byte>, t: seq<byte>, r: seq<byte>, y: seq<byte>, z: seq<byte>)
    requires y + z == g + t
    ensures f + (v + g + (t + r)) == f + v + y + z + r
  {
    Assoc3(v, g, t, r);
    Assoc2(v, g, t);
    Assoc2(v, y, z);
    assert v + g + (t + r) == v + y + z + r;
    Assoc2(f, v + y + z, r);
    Assoc2(f, v + y, z);
    Assoc2(f, v, y);
  }

  lemma SameLengthBytes(head: seq<byte>, value: seq<byte>, behind: seq<byte>, tail: seq<byte>, length: u16)
    requires |value| == length
    ensures Shifted(head, value, behind, tail, length) == Moved(head, value, behind, tail, length)
  {
    hide Overwritten;
    var front := head + Le16(|value|);
    assert front + (value + behind + tail) == (front + value) + behind + tail;
    OverwrittenMiddle(front + value, behind, behind, tail);
    assert value[..|value|] == value && Zeros(0) + tail == tail;
  }

  /** When a reallocation can be done: the entry is there, behind entries of its kind only, and the result fits. */
  ghost predicate CanRealloc(es: seq<Entry>, size: nat, t: ExtensionType, length: nat) {
    var i := IndexOf(es, t);
    && i < |es| && SameKind(es[..i], AccountTypeOf(t)) && length <= U16_MAX
    && |Encode(es)| - |es[i].value| + length <= size
  }

  /**
   Reallocation refines the list update: it succeeds exactly under `CanRealloc`; then only the target entry
   changes (cut, or extended with zeros), every other entry keeps its bytes and its place, the used length moves
   by exactly the difference and the rest of the buffer stays zero. Every error leaves the buffer unchanged.
   */
  lemma ReallocRefines(b: seq<byte>, es: seq<Entry>, t: ExtensionType, length: nat)
    requires Represents(b, es) && t != UNINITIALIZED
    ensures var i := IndexOf(es, t);
            var (r, b') := Realloc(b, t, length);
            && (r.Ok? <==> CanRealloc(es, |b|, t, length))
            && (r.Err? ==> b' == b)
            && (r.Ok? ==>
                  var es' := es[i := Entry(t, Resize(es[i].value, length))];
                  && r.value == |Encode(es[..i])|
                  && Represents(b', es')
                  && |Encode(es')| == |Encode(es)| - |es[i].value| + length)
  {
    hide Find, Scan, Encode, IndexOf, ReallocAt, Moved;
    RepresentsScan(b, es);
    FindSlot(b, es, t, false);
    if Find(b, t, false).Ok? {
      var i := IndexOf(es, t);
      SlotFields(b, es, i);
      ReallocIsAt(b, es, |Encode(es[..i])|, t, length);
      ReallocEntry(b, es, i, length);
      if CanRealloc(es, |b|, t, length) {
        MovedLayout(es, i, b[|Encode(es)|..], length);
      }
    }
  }

  lemma ReallocIsAt(b: seq<byte>, es: seq<Entry>, n: nat, t: ExtensionType, length: nat)
    requires t != UNINITIALIZED && Scan(b) == Ok(es) && Find(b, t, false) == Ok(n)
    ensures n + 4 + FromLe16(b[n + 2..n + 4]) <= |Encode(es)| <= |b|
    ensures Realloc(b, t, length) == ReallocAt(b, n, FromLe16(b[n + 2..n + 4]), |Encode(es)|, length)
  {
    FoundInside(b, es, n, t);
  }

  /** `ReallocAt` on a buffer given by its parts. */
  lemma ReallocParts(b: seq<byte>, n: nat, used: nat, length: nat,
                     head: seq<byte>, field: seq<byte>, v: seq<byte>, behind: seq<byte>, tail: seq<byte>)
    requires b == head + field + (v + behind + tail)
    requires |head| == n + 2 && |field| == 2 && used == n + 4 + |v| + |behind|
    ensures ReallocAt(b, n, |v|, used, length) ==
            if length > |v| + |tail| then (Err(InvalidAccountData), b)
            else if length > U16_MAX then (Err(AccountDataTooSmall), b)
            else (Ok(n), Moved(head, v, behind, tail, length))
  {
    CutBack(head, field, v, behind, tail);
  }

  /** The parts of a well-formed buffer around entry `i`. */
  lemma LayoutParts(b: seq<byte>, es: seq<Entry>, i: nat)
    requires Encode(es) <= b && i < |es|
    ensures var e := es[i];
            b == Encode(es[..i]) + Le16(e.ty) + Le16(|e.value|) + (e.value + Encode(es[i + 1..]) + b[|Encode(es)|..])
    ensures |Encode(es)| == |Encode(es[..i])| + 4 + |es[i].value| + |Encode(es[i + 1..])|
  {
    EncodeSplit(es, i);
    var front, back := EntryParts(b, es, i);
    var e := es[i];
    Regroup(front, Le16(e.ty), Le16(|e.value|), e.value, Encode(es[i + 1..]), b[|Encode(es)|..]);
  }

  lemma Regroup(f: seq<byte>, x: seq<byte>, y: seq<byte>, v: seq<byte>, g: seq<byte>, h: seq<byte>)
    ensures f + (x + y + v) + (g + h) == f + x + y + (v + g + h)
  {
    assert f + (x + y + v) == f + x + y + v;
    var p := f + x + y;
    assert p + v + (g + h) == p + (v + (g + h));
    assert v + (g + h) == v + g + h;
  }

  lemma ReallocEntry(b: seq<byte>, es: seq<Entry>, i: nat, length: nat)
    requires Represents(b, es) && i < |es|
    ensures |Encode(es[..i])| + 4 + |es[i].value| <= |Encode(es)|
    ensures ReallocAt(b, |Encode(es[..i])|, |es[i].value|, |Encode(es)|, length) ==
            if |Encode(es)| - |es[i].value| + length > |b| then (Err(InvalidAccountData), b)
            else if length > U16_MAX then (Err(AccountDataTooSmall), b)
            else (Ok(|Encode(es[..i])|),
                  Moved(Encode(es[..i]) + Le16(es[i].ty), es[i].value, Encode(es[i + 1..]), b[|Encode(es)|..], length))
  {
    LayoutParts(b, es, i);
    ReallocParts(b, |Encode(es[..i])|, |Encode(es)|, length, Encode(es[..i]) + Le16(es[i].ty), Le16(|es[i].value|),
                 es[i].value, Encode(es[i + 1..]), b[|Encode(es)|..]);
  }

  /** Cutting a concatenation at its seams gives its parts back. */
  lemma CutBack(head: seq<byte>, field: seq<byte>, v: seq<byte>, behind: seq<byte>, tail: seq<byte>)
    ensures var b := head + field + (v + behind + tail);
            var i, j := |head|, |head| + |field|;
            && b[..i] == head && b[j..j + |v|] == v
            && b[j + |v|..j + |v| + |behind|] == behind && b[j + |v| + |behind|..] == tail
  {
  }

  lemma MovedLayout(es: seq<Entry>, i: nat, tail: seq<byte>, length: u16)
    requires i < |es| && AllZero(tail) && length <= |es[i].value| + |tail|
    ensures var v := es[i].value;
            var es' := es[i := Entry(es[i].ty, Resize(v, length))];
            && Represents(Moved(Encode(es[..i]) + Le16(es[i].ty), v, Encode(es[i + 1..]), tail, length), es')
            && |Encode(es')| == |Encode(es)| - |v| + length
  {
    var v := es[i].value;
    var e' := Entry(es[i].ty, Resize(v, length));
    ReplacedLayout(es, i, e');
    EncodeSplit(es, i);
    var left := if length <= |v| then Zeros(|v| - length) + tail else tail[length - |v|..];
    var x, behind := Encode(es[..i]) + EncodeEntry(e'), Encode(es[i + 1..]);
    assert Encode(es[..i]) + Le16(es[i].ty) + Le16(length) + Resize(v, length) == x;
    LayoutAndTail(x, behind, left, es[i := e']);
    assert x + behind + left == x + (behind + left);
  }
}
