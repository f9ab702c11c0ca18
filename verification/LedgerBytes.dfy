/**
 Why the ledger may keep an extension area as a list of types: initialising an extension and growing an account do to
 the bytes what the ledger does to the list, and the list always fits.
 */
module LedgerBytes {
  import opened Bytes
  import opened Common
  import opened ExtensionTypes
  import opened Tlv
  import opened TlvOps
  import opened TlvAccount
  import opened InitAll
  import LedgerState

  /** Entries of fixed-size types of one kind, each value of its type's length. */
  ghost predicate Regular(es: seq<Entry>, base: Base) {
    SameKind(es, base.Type()) && forall i :: 0 <= i < |es| ==> |es[i].value| == TypeLen(es[i].ty)
  }

  /** Length of the extension area of an account. */
  function AreaLen(dataLen: nat): nat {
    if dataLen > BASE_ACCOUNT_AND_TYPE_LENGTH then dataLen - BASE_ACCOUNT_AND_TYPE_LENGTH else 0
  }

  lemma {:induction false} EncodedLen(es: seq<Entry>, base: Base)
    requires Regular(es, base)
    ensures |Encode(es)| == SumTlvLen(Types(es))
  {
    if es != [] {
      var n := |es| - 1;
      assert es == es[..n] + [es[n]];
      assert Types(es)[..n] == Types(es[..n]);
      EncodedLen(es[..n], base);
      EncodeSnoc(es[..n], es[n]);
    }
  }

  lemma TypeListed(es: seq<Entry>, t: ExtensionType)
    ensures t in Types(es) <==> IndexOf(es, t) < |es|
  {
    if IndexOf(es, t) < |es| {
      assert Types(es)[IndexOf(es, t)] == t;
    }
  }

  lemma TypesOfPut(es: seq<Entry>, e: Entry)
    ensures Types(Put(es, e)) == if e.ty in Types(es) then Types(es) else Types(es) + [e.ty]
  {
    TypeListed(es, e.ty);
  }

  lemma RegularPut(es: seq<Entry>, e: Entry, base: Base)
    requires Regular(es, base) && AccountTypeOf(e.ty) == base.Type() && |e.value| == TypeLen(e.ty)
    ensures Regular(Put(es, e), base)
  {
  }

  /**
   `init_extension` on the bytes of a regular area succeeds exactly when the ledger's operation on the list of
   types does, and leaves a regular area with the list the ledger computes.
   */
  lemma InitExtensionOnBytes(dataLen: nat, b: seq<byte>, es: seq<Entry>, base: Base, e: Entry)
    requires |b| == AreaLen(dataLen) && Represents(b, es) && Regular(es, base)
    requires AccountTypeOf(e.ty) == base.Type() && |e.value| == TypeLen(e.ty)
    ensures var (r, b') := Init(b, base, e.ty, e.value, true);
            var spec := LedgerState.InitExtension(dataLen, Types(es), e.ty);
            && (r.Ok? <==> spec.Ok?)
            && (r.Ok? ==> |b'| == |b| && Represents(b', Put(es, e)))
            && (r.Ok? ==> Regular(Put(es, e), base) && Types(Put(es, e)) == spec.value)
  {
    hide Init, Represents, Encode, SumTlvLen, TypeLen, AccountTypeOf, Put, IndexOf, Types;
    InitRefines(b, es, base, e.ty, e.value, true);
    EncodedLen(es, base);
    TypeListed(es, e.ty);
    TypesOfPut(es, e);
    RegularPut(es, e, base);
  }

  /** A list the ledger has room for has a byte area of the account's length. */
  lemma RoomIsEnough(dataLen: nat, types: seq<ExtensionType>, base: Base, v: Values)
    requires LedgerState.Room(types, dataLen) && UNINITIALIZED !in types && AllOfKind(types, base)
    ensures var es := EntriesOf(types, v);
            && |Encode(es)| <= AreaLen(dataLen)
            && Represents(Encode(es) + Zeros(AreaLen(dataLen) - |Encode(es)|), es) && Types(es) == types
  {
    hide Encode, TypeLen, AccountTypeOf;
    var es := EntriesOf(types, v);
    EncodedSum(types, v);
    var b := Encode(es) + Zeros(AreaLen(dataLen) - |Encode(es)|);
    assert b[..|Encode(es)|] == Encode(es) && b[|Encode(es)|..] == Zeros(AreaLen(dataLen) - |Encode(es)|);
  }

  /**
   Growing an account by a reallocation, which sets the account type when the base state stood alone: the list, and so
   the ledger's types, stay as they were, and so does the base state.
   */
  lemma GrowthOnBytes(d: seq<byte>, es: seq<Entry>, needed: nat)
    requires Holds(d, AccountBase, es) && needed > |d| && needed > TLV_AT && needed != MULTISIG_LEN
    ensures var r := SetAccountType(Resized(d, needed), AccountBase);
            r.Ok? && |r.value| == needed && Holds(r.value, AccountBase, es)
                && r.value[..ACCOUNT_LEN] == d[..ACCOUNT_LEN]
  {
    if |d| <= TLV_AT {
      BaseAlone(d, AccountBase, es);
      FirstGrowthHolds(d, AccountBase, needed);
    } else {
      GrownHolds(d, AccountBase, es, needed);
      TypedStays(Resized(d, needed), es);
    }
  }

  lemma TypedStays(d: seq<byte>, es: seq<Entry>)
    requires Holds(d, AccountBase, es) && |d| > TLV_AT
    ensures SetAccountType(d, AccountBase) == Ok(d)
  {
  }
}
