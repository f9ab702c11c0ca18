/**
 The extension buffer read as a list of (type, value) entries.
 `Scan` and `Find` are the two independent walks over the bytes (`get_tlv_data_info` and
 `get_extension_indices`); `Encode` is the layout both are measured against.
 */
module Tlv {
  import opened Bytes
  import opened Common
  import opened ExtensionTypes

  datatype RawEntry = Entry(ty: ExtensionType, value: seq<byte>)

  /** What one slot can hold: a real type, and a value whose length fits in the `u16` length field. */
  type Entry = e: RawEntry | e.ty != UNINITIALIZED && |e.value| <= U16_MAX
    witness Entry(TRANSFER_FEE_CONFIG, [])

  function EncodeEntry(e: Entry): (b: seq<byte>)
    ensures |b| == AddTypeAndLength(|e.value|)
  {
    Le16(e.ty) + Le16(|e.value|) + e.value
  }

  function Encode(es: seq<Entry>): seq<byte> {
    if es == [] then [] else EncodeEntry(es[0]) + Encode(es[1..])
  }

  function Types(es: seq<Entry>): (ts: seq<ExtensionType>)
    ensures |ts| == |es| && forall i :: 0 <= i < |es| ==> ts[i] == es[i].ty
  {
    seq(|es|, i requires 0 <= i < |es| => es[i].ty)
  }

  /** A buffer represents a list when it is the list's layout followed by zero bytes only. */
  ghost predicate Represents(b: seq<byte>, es: seq<Entry>) {
    Encode(es) <= b && AllZero(b[|Encode(es)|..])
  }

  /** First position holding an entry of type `t`, or the list's length. */
  function IndexOf(es: seq<Entry>, t: ExtensionType): (i: nat)
    ensures i <= |es|
    ensures i < |es| ==> es[i].ty == t
    ensures forall j :: 0 <= j < i ==> es[j].ty != t
  {
    if es == [] || es[0].ty == t then 0 else 1 + IndexOf(es[1..], t)
  }

  predicate SameKind(es: seq<Entry>, kind: AccountType) {
    forall i :: 0 <= i < |es| ==> AccountTypeOf(es[i].ty) == kind
  }

  lemma {:induction false} EncodeAppend(xs: seq<Entry>, ys: seq<Entry>)
    ensures Encode(xs + ys) == Encode(xs) + Encode(ys)
  {
    if xs == [] {
      assert xs + ys == ys;
    } else {
      EncodeAppend(xs[1..], ys);
      assert (xs + ys)[1..] == xs[1..] + ys;
    }
  }

  /** The layout around entry `i`. */
  lemma EncodeSplit(es: seq<Entry>, i: nat)
    requires i < |es|
    ensures Encode(es) == Encode(es[..i]) + EncodeEntry(es[i]) + Encode(es[i + 1..])
  {
    EncodeAppend(es[..i], es[i..]);
    assert es == es[..i] + es[i..] && es[i..][1..] == es[i + 1..];
  }

  lemma EncodeSnoc(es: seq<Entry>, e: Entry)
    ensures Encode(es + [e]) == Encode(es) + EncodeEntry(e)
  {
    EncodeAppend(es, [e]);
    assert Encode([e]) == EncodeEntry(e) + Encode([]);
  }

  /** `get_tlv_data_info`: the entries up to the first free slot, or an error for a malformed buffer. */
  function Scan(b: seq<byte>): Result<seq<Entry>> {
    if |b| < 2 then Ok([])
    else
      var ty :- TypeFromBytes(b[..2]);
      if ty == UNINITIALIZED then Ok([])
      else if |b| < 4 then Err(InvalidAccountData)
      else
        var end := 4 + FromLe16(b[2..4]);
        if end > |b| then Err(InvalidAccountData)
        else
          var rest :- Scan(b[end..]);
          Ok([Entry(ty, b[4..end])] + rest)
  }

  /**
   `get_extension_indices`: offset of the first entry of type `t`; with `init`, of the free slot
   when there is none. The walk stops at an entry of another account kind.
   */
  function Find(b: seq<byte>, t: ExtensionType, init: bool): (r: Result<nat>)
    ensures r.Ok? ==> r.value + 4 <= |b|
  {
    if |b| < 4 then Err(InvalidAccountData)
    else
      var ty :- TypeFromBytes(b[..2]);
      if ty == t then Ok(0)
      else if ty == UNINITIALIZED then if init then Ok(0) else Err(ExtensionNotFound)
      else if AccountTypeOf(t) != AccountTypeOf(ty) then Err(ExtensionTypeMismatch)
      else
        var end := 4 + FromLe16(b[2..4]);
        if end >= |b| then Err(InvalidAccountData)
        else
          var n :- Find(b[end..], t, init);
          Ok(end + n)
  }

  /** `get_extension_bytes`. */
  function GetExtensionBytes(b: seq<byte>, base: Base, t: ExtensionType): Result<seq<byte>> {
    if AccountTypeOf(t) != base.Type() then Err(InvalidAccountData)
    else
      var n :- Find(b, t, false);
      var end := n + 4 + FromLe16(b[n + 2..n + 4]);
      if |b| < end then Err(InvalidAccountData) else Ok(b[n + 4..end])
  }

  /** The scanning loop of `get_tlv_data_info`. */
  method GetTlvDataInfo(b: seq<byte>) returns (r: Result<(seq<ExtensionType>, nat)>)
    ensures r == match Scan(b) case Err(e) => Err(e) case Ok(es) => Ok((Types(es), |Encode(es)|))
  {
    hide Scan, Encode, EncodeEntry, FromLe16, TypeFromBytes, Resumed, Types;
    var types: seq<ExtensionType> := [];
    var start := 0;
    ghost var es: seq<Entry> := [];
    ScanStarts(b);
    while start < |b|
      invariant start <= |b|
      invariant types == Types(es) && start == |Encode(es)|
      invariant Scan(b) == Resumed(es, Scan(b[start..]))
    {
      if |b| < start + 2 {
        ScanStops(b, start, es);
        return Ok((types, start));
      }
      var ty := TypeFromBytes(b[start..start + 2]);
      if ty.Err? {
        ScanFails(b, start, es);
        return Err(ty.error);
      }
      if ty.value == UNINITIALIZED {
        ScanStops(b, start, es);
        return Ok((types, start));
      }
      if |b| < start + 4 {
        ScanFails(b, start, es);
        return Err(InvalidAccountData);
      }
      types := types + [ty.value];
      var end := start + 4 + FromLe16(b[start + 2..start + 4]);
      if end > |b| {
        ScanFails(b, start, es);
        return Err(InvalidAccountData);
      }
      ghost var e := Entry(ty.value, b[start + 4..end]);
      ScanGoesOn(b, start, es);
      EncodeSnoc(es, e);
      EntrySnoc(es, e);
      es := es + [e];
      start := end;
    }
    ScanStops(b, start, es);
    r := Ok((types, start));
  }

  lemma ScanStarts(b: seq<byte>)
    ensures Scan(b) == Resumed([], Scan(b[0..])) && Types([]) == [] && Encode([]) == []
  {
    assert b[0..] == b && (Scan(b).Ok? ==> [] + Scan(b).value == Scan(b).value);
  }

  lemma EntrySnoc(es: seq<Entry>, e: Entry)
    ensures Types(es + [e]) == Types(es) + [e.ty] && |EncodeEntry(e)| == 4 + |e.value|
  {
  }

  lemma ScanStops(b: seq<byte>, start: nat, es: seq<Entry>)
    requires start <= |b| && (|b| < start + 2 || TypeFromBytes(b[start..start + 2]) == Ok(UNINITIALIZED))
    ensures Resumed(es, Scan(b[start..])) == Ok(es)
  {
    ScanAt(b, start);
    assert es + [] == es;
  }

  lemma ScanFails(b: seq<byte>, start: nat, es: seq<Entry>)
    requires start + 2 <= |b| && TypeFromBytes(b[start..start + 2]) != Ok(UNINITIALIZED)
    requires || TypeFromBytes(b[start..start + 2]).Err?
             || |b| < start + 4
             || |b| < start + 4 + FromLe16(b[start + 2..start + 4])
    ensures var ty := TypeFromBytes(b[start..start + 2]);
            Resumed(es, Scan(b[start..])) == Err(if ty.Err? then ty.error else InvalidAccountData)
  {
    hide FromLe16, TypeFromBytes;
    ScanAt(b, start);
  }

  lemma ScanGoesOn(b: seq<byte>, start: nat, es: seq<Entry>)
    requires start + 4 <= |b| && start + 4 + FromLe16(b[start + 2..start + 4]) <= |b|
    requires TypeFromBytes(b[start..start + 2]).Ok? && TypeFromBytes(b[start..start + 2]).value != UNINITIALIZED
    ensures var end := start + 4 + FromLe16(b[start + 2..start + 4]);
            var e := Entry(TypeFromBytes(b[start..start + 2]).value, b[start + 4..end]);
            Resumed(es, Scan(b[start..])) == Resumed(es + [e], Scan(b[end..]))
  {
    hide FromLe16, TypeFromBytes, Scan, Resumed;
    ScanAt(b, start);
    var end := start + 4 + FromLe16(b[start + 2..start + 4]);
    ResumedStep(es, Entry(TypeFromBytes(b[start..start + 2]).value, b[start + 4..end]), Scan(b[end..]));
  }

  /** One round of the scan, in terms of positions in the whole buffer. */
  lemma ScanAt(b: seq<byte>, start: nat)
    requires start <= |b|
    ensures Scan(b[start..]) ==
            if |b| < start + 2 then Ok([])
            else match TypeFromBytes(b[start..start + 2])
              case Err(x) => Err(x)
              case Ok(ty) =>
                if ty == UNINITIALIZED then Ok([])
                else if |b| < start + 4 then Err(InvalidAccountData)
                else
                  var end := start + 4 + FromLe16(b[start + 2..start + 4]);
                  if end > |b| then Err(InvalidAccountData)
                  else match Scan(b[end..])
                    case Err(x) => Err(x)
                    case Ok(rest) => Ok([Entry(ty, b[start + 4..end])] + rest)
  {
    if |b| >= start + 2 {
      SliceOfDrop(b, start, 0, 2);
      if |b| >= start + 4 {
        SliceOfDrop(b, start, 2, 4);
        var end := start + 4 + FromLe16(b[start + 2..start + 4]);
        if end <= |b| {
          SliceOfDrop(b, start, 4, end - start);
          DropTwice(b, start, end - start);
        }
      }
    }
  }

  /** The whole scan, given the entries before some point and the scan from there on. */
  ghost function Resumed(es: seq<Entry>, rest: Result<seq<Entry>>): Result<seq<Entry>> {
    match rest case Err(e) => Err(e) case Ok(more) => Ok(es + more)
  }

  lemma ResumedStep(es: seq<Entry>, e: Entry, rest: Result<seq<Entry>>)
    ensures Resumed(es + [e], rest) == Resumed(es, match rest case Err(x) => Err(x) case Ok(more) => Ok([e] + more))
  {
    if rest.Ok? {
      assert es + ([e] + rest.value) == es + [e] + rest.value;
    }
  }

  lemma SliceOfDrop(b: seq<byte>, start: nat, i: nat, j: nat)
    requires i <= j && start + j <= |b|
    ensures b[start..][i..j] == b[start + i..start + j]
  {
  }

  /** One round of the search, in terms of positions in the whole buffer. */
  lemma FindAt(b: seq<byte>, start: nat, t: ExtensionType, init: bool)
    requires start <= |b|
    ensures Find(b[start..], t, init) ==
            if |b| < start + 4 then Err(InvalidAccountData)
            else match TypeFromBytes(b[start..start + 2])
              case Err(x) => Err(x)
              case Ok(ty) =>
                if ty == t then Ok(0)
                else if ty == UNINITIALIZED then if init then Ok(0) else Err(ExtensionNotFound)
                else if AccountTypeOf(t) != AccountTypeOf(ty) then Err(ExtensionTypeMismatch)
                else
                  var len := 4 + FromLe16(b[start + 2..start + 4]);
                  if start + len >= |b| then Err(InvalidAccountData)
                  else match Find(b[start + len..], t, init)
                    case Err(x) => Err(x)
                    case Ok(n) => Ok(len + n)
  {
    if |b| >= start + 4 {
      SliceOfDrop(b, start, 0, 2);
      SliceOfDrop(b, start, 2, 4);
      var len := 4 + FromLe16(b[start + 2..start + 4]);
      if start + len < |b| { DropTwice(b, start, len); }
    }
  }

  lemma FindShort(b: seq<byte>, t: ExtensionType, init: bool)
    requires |b| < 4
    ensures Find(b, t, init) == Err(InvalidAccountData)
  {
  }

  /** The searching loop of `get_extension_indices`. */
  method GetExtensionIndices(b: seq<byte>, t: ExtensionType, init: bool) returns (r: Result<nat>)
    ensures r == Find(b, t, init)
  {
    hide Find;
    var start := 0;
    assert b[0..] == b;
    FindShort(b[|b|..], t, init);
    while start < |b|
      invariant Find(b, t, init) ==
        if start <= |b| then match Find(b[start..], t, init) case Err(e) => Err(e) case Ok(n) => Ok(start + n)
        else Err(InvalidAccountData)
      decreases |b| - start
    {
      FindAt(b, start, t, init);
      if |b| < start + 4 {
        return Err(InvalidAccountData);
      }
      var ty :- TypeFromBytes(b[start..start + 2]);
      if ty == t {
        return Ok(start);
      } else if ty == UNINITIALIZED {
        if init {
          return Ok(start);
        } else {
          return Err(ExtensionNotFound);
        }
      } else if AccountTypeOf(t) != AccountTypeOf(ty) {
        return Err(ExtensionTypeMismatch);
      } else {
        var end := start + 4 + FromLe16(b[start + 2..start + 4]);
        start := end;
      }
    }
    r := Err(InvalidAccountData);
  }

  // ------------------------------------------------------------------ the two walks against the layout

  /** Reading one entry back from the front of a buffer. */
  lemma EntryAtFront(e: Entry, rest: seq<byte>)
    ensures var b := EncodeEntry(e) + rest;
            && b[..2] == Le16(e.ty) && TypeFromBytes(b[..2]) == Ok(e.ty)
            && FromLe16(b[2..4]) == |e.value|
            && b[4..4 + |e.value|] == e.value && b[4 + |e.value|..] == rest
  {
    var b := EncodeEntry(e) + rest;
    assert b[..2] == Le16(e.ty);
    assert b[2..4] == Le16(|e.value|);
  }

  /** Nothing that follows the entries can be taken for another one. */
  predicate Stops(tail: seq<byte>) {
    |tail| < 2 || tail[..2] == Zeros(2)
  }

  /** Scanning a buffer that starts with an entry. */
  lemma ScanCons(e: Entry, rest: seq<byte>)
    ensures Scan(EncodeEntry(e) + rest) ==
              match Scan(rest) case Err(x) => Err(x) case Ok(es) => Ok([e] + es)
  {
    EntryAtFront(e, rest);
  }

  /** A buffer whose scan is not empty starts with the first entry scanned. */
  lemma ScanUncons(b: seq<byte>)
    requires Scan(b).Ok? && Scan(b).value != []
    ensures var es := Scan(b).value;
            var end := |EncodeEntry(es[0])|;
            end <= |b| && b == EncodeEntry(es[0]) + b[end..] && Scan(b[end..]) == Ok(es[1..])
  {
    var es := Scan(b).value;
    var end := 4 + FromLe16(b[2..4]);
    Le16RoundTrip(es[0].ty, b[..2]);
    Le16RoundTrip(0, b[2..4]);
    assert b == b[..2] + b[2..4] + b[4..end] + b[end..];
    assert es[1..] == Scan(b[end..]).value;
  }

  /** Decoding inverts encoding, whatever the list. */
  lemma {:induction false} ScanEncode(es: seq<Entry>, tail: seq<byte>)
    requires Stops(tail)
    ensures Scan(Encode(es) + tail) == Ok(es)
  {
    if es == [] {
      assert Encode(es) + tail == tail;
    } else {
      var rest := Encode(es[1..]) + tail;
      assert Encode(es) + tail == EncodeEntry(es[0]) + rest;
      ScanEncode(es[1..], tail);
      ScanCons(es[0], rest);
      assert [es[0]] + es[1..] == es;
    }
  }

  /** Encoding inverts decoding: a buffer that scans starts with the layout of what was scanned. */
  lemma {:induction false} ScanSound(b: seq<byte>)
    requires Scan(b).Ok?
    ensures var es := Scan(b).value; Encode(es) <= b && Stops(b[|Encode(es)|..])
    decreases |b|
  {
    var es := Scan(b).value;
    if es != [] {
      ScanUncons(b);
      var end := |EncodeEntry(es[0])|;
      ScanSound(b[end..]);
      DropTwice(b, end, |Encode(es[1..])|);
    } else if |b| >= 2 {
      Le16RoundTrip(0, b[..2]);
      assert b[0..] == b;
    }
  }

  lemma DropTwice(b: seq<byte>, m: nat, n: nat)
    requires m + n <= |b|
    ensures b[m..][n..] == b[m + n..]
  {
  }

  lemma RepresentsScan(b: seq<byte>, es: seq<Entry>)
    requires Represents(b, es)
    ensures Scan(b) == Ok(es)
  {
    var tail := b[|Encode(es)|..];
    assert b == Encode(es) + tail;
    assert |tail| >= 2 ==> tail[..2] == Zeros(2);
    ScanEncode(es, tail);
  }

  /** Searching a buffer that starts with an entry. */
  lemma FindCons(e: Entry, rest: seq<byte>, t: ExtensionType, init: bool)
    requires t != UNINITIALIZED
    ensures Find(EncodeEntry(e) + rest, t, init) ==
              if e.ty == t then Ok(0)
              else if AccountTypeOf(t) != AccountTypeOf(e.ty) then Err(ExtensionTypeMismatch)
              else match Find(rest, t, init) case Err(x) => Err(x) case Ok(n) => Ok(|EncodeEntry(e)| + n)
  {
    EntryAtFront(e, rest);
  }

  /** What a search finds in the list: the position it must land on, or the error it must report. */
  function FindInList(es: seq<Entry>, free: nat, t: ExtensionType, init: bool): Result<nat> {
    if es == [] then
      if free < 4 then Err(InvalidAccountData) else if init then Ok(0) else Err(ExtensionNotFound)
    else if es[0].ty == t then Ok(0)
    else if AccountTypeOf(t) != AccountTypeOf(es[0].ty) then Err(ExtensionTypeMismatch)
    else
      var i :- FindInList(es[1..], free, t, init);
      Ok(i + 1)
  }

  /** On a buffer that scans, the byte search is the list search. */
  lemma {:induction false} FindRefines(b: seq<byte>, es: seq<Entry>, t: ExtensionType, init: bool)
    requires Scan(b) == Ok(es) && t != UNINITIALIZED && |Encode(es)| <= |b|
    ensures match FindInList(es, |b| - |Encode(es)|, t, init)
            case Err(x) => Find(b, t, init) == Err(x)
            case Ok(i) => i <= |es| && Find(b, t, init) == Ok(|Encode(es[..i])|)
    decreases |es|
  {
    hide Find, Scan;
    if es == [] {
      FindFree(b, t, init);
    } else {
      ScanUncons(b);
      var end := |EncodeEntry(es[0])|;
      FindCons(es[0], b[end..], t, init);
      FindRefines(b[end..], es[1..], t, init);
      var r := FindInList(es[1..], |b| - |Encode(es)|, t, init);
      if r.Ok? {
        assert es[..r.value + 1][1..] == es[1..][..r.value];
      }
    }
  }

  lemma FindFree(b: seq<byte>, t: ExtensionType, init: bool)
    requires Scan(b) == Ok([]) && t != UNINITIALIZED
    ensures Find(b, t, init) ==
              if |b| < 4 then Err(InvalidAccountData) else if init then Ok(0) else Err(ExtensionNotFound)
  {
  }

  /** The list search, said without recursion. */
  lemma {:induction false} FindInListMeaning(es: seq<Entry>, free: nat, t: ExtensionType, init: bool)
    ensures var i := IndexOf(es, t);
            var r := FindInList(es, free, t, init);
            if !SameKind(es[..i], AccountTypeOf(t)) then r == Err(ExtensionTypeMismatch)
            else if i < |es| then r == Ok(i)
            else if free < 4 then r == Err(InvalidAccountData)
            else if init then r == Ok(|es|) else r == Err(ExtensionNotFound)
  {
    var i := IndexOf(es, t);
    if i > 0 {
      FindInListMeaning(es[1..], free, t, init);
      assert es[..i] == [es[0]] + es[1..][..i - 1];
      assert SameKind(es[..i], AccountTypeOf(t)) <==>
             AccountTypeOf(es[0].ty) == AccountTypeOf(t) && SameKind(es[1..][..i - 1], AccountTypeOf(t))
      by {
        SameKindCons(es[0], es[1..][..i - 1], AccountTypeOf(t));
      }
    }
  }

  lemma SameKindCons(e: Entry, es: seq<Entry>, kind: AccountType)
    ensures SameKind([e] + es, kind) <==> AccountTypeOf(e.ty) == kind && SameKind(es, kind)
  {
    if SameKind([e] + es, kind) {
      assert ([e] + es)[0] == e;
      forall i | 0 <= i < |es|
        ensures AccountTypeOf(es[i].ty) == kind
      {
        assert ([e] + es)[i + 1] == es[i];
      }
    }
  }

  /**
   The two walks agree: when the whole buffer scans and holds only entries of the base's kind, looking up a
   type of that kind succeeds exactly when the scan lists it, and yields the first such entry's value.
   */
  lemma ScannersAgree(b: seq<byte>, es: seq<Entry>, base: Base, t: ExtensionType)
    requires Scan(b) == Ok(es) && SameKind(es, base.Type())
    requires t != UNINITIALIZED && AccountTypeOf(t) == base.Type()
    ensures GetExtensionBytes(b, base, t).Ok? <==> t in Types(es)
    ensures t in Types(es) ==>
              IndexOf(es, t) < |es| && GetExtensionBytes(b, base, t) == Ok(es[IndexOf(es, t)].value)
  {
    var i := IndexOf(es, t);
    if i < |es| {
      assert Types(es)[i] == t;
      ReadBack(b, es, base, t);
    } else {
      FindLocates(b, es, t, false);
    }
  }

  /** Looking up a listed type, when only entries of its kind come before it. */
  lemma ReadBack(b: seq<byte>, es: seq<Entry>, base: Base, t: ExtensionType)
    requires Scan(b) == Ok(es) && AccountTypeOf(t) == base.Type()
    requires IndexOf(es, t) < |es| && SameKind(es[..IndexOf(es, t)], base.Type())
    ensures GetExtensionBytes(b, base, t) == Ok(es[IndexOf(es, t)].value)
  {
    hide Find, Scan, GetExtensionBytes, Encode, FromLe16, Le16;
    var i := IndexOf(es, t);
    ScanSound(b);
    FindLocates(b, es, t, false);
    EntryInPlace(b, es, i);
    GetAt(b, base, t, |Encode(es[..i])|, es[i].value);
  }

  lemma GetAt(b: seq<byte>, base: Base, t: ExtensionType, n: nat, v: seq<byte>)
    requires Find(b, t, false) == Ok(n) && AccountTypeOf(t) == base.Type()
    requires n + 4 + |v| <= |b| && FromLe16(b[n + 2..n + 4]) == |v| && b[n + 4..n + 4 + |v|] == v
    ensures GetExtensionBytes(b, base, t) == Ok(v)
  {
    hide Find, Scan;
  }

  /** The byte offset a search lands on, when only entries of the type's kind come before it. */
  lemma FindLocates(b: seq<byte>, es: seq<Entry>, t: ExtensionType, init: bool)
    requires Scan(b) == Ok(es) && t != UNINITIALIZED
    requires SameKind(es[..IndexOf(es, t)], AccountTypeOf(t))
    ensures |Encode(es)| <= |b|
    ensures var i := IndexOf(es, t);
            if i < |es| then Find(b, t, init) == Ok(|Encode(es[..i])|)
            else if |b| < |Encode(es)| + 4 then Find(b, t, init) == Err(InvalidAccountData)
            else if init then Find(b, t, init) == Ok(|Encode(es)|)
            else Find(b, t, init) == Err(ExtensionNotFound)
  {
    ScanSound(b);
    FindRefines(b, es, t, init);
    FindInListMeaning(es, |b| - |Encode(es)|, t, init);
    assert es[..|es|] == es;
  }

  /** The bytes of entry `i` inside a buffer that starts with the layout of the list. */
  lemma EntryInPlace(b: seq<byte>, es: seq<Entry>, i: nat)
    requires Encode(es) <= b && i < |es|
    ensures var n := |Encode(es[..i])|;
            && n + |EncodeEntry(es[i])| <= |Encode(es)|
            && b[n..n + 2] == Le16(es[i].ty)
            && b[n + 2..n + 4] == Le16(|es[i].value|)
            && FromLe16(b[n + 2..n + 4]) == |es[i].value|
            && b[n + 4..n + 4 + |es[i].value|] == es[i].value
  {
    hide Encode;
    EncodeSplit(es, i);
    var e := EncodeEntry(es[i]);
    var n := |Encode(es[..i])|;
    assert Encode(es)[n..n + |e|] == e;
    assert b[n..n + |e|] == e;
    SliceOfSlice(b, n, n + |e|, 0, 2);
    SliceOfSlice(b, n, n + |e|, 2, 4);
    SliceOfSlice(b, n, n + |e|, 4, |e|);
    assert e[4..] == es[i].value && e[2..4] == Le16(|es[i].value|) && e[0..2] == Le16(es[i].ty);
  }

  lemma SliceOfSlice(b: seq<byte>, lo: nat, hi: nat, i: nat, j: nat)
    requires lo <= hi <= |b| && i <= j <= hi - lo
    ensures b[lo..hi][i..j] == b[lo + i..lo + j]
  {
    forall k | 0 <= k < j - i
      ensures b[lo..hi][i..j][k] == b[lo + i..lo + j][k]
    {
      assert b[lo..hi][i..j][k] == b[lo..hi][i + k];
    }
  }
}
