/**
 Extension types, the kind of account each belongs to, and the size calculators
 (`ExtensionType`, `AccountType` and their helpers in `extension/mod.rs`).
 */
module ExtensionTypes {
  import opened Bytes
  import opened Common

  /** An extension type is its `u16` discriminant; 24 are defined. */
  type ExtensionType = n: int | 0 <= n < 24

  const UNINITIALIZED: ExtensionType := 0
  const TRANSFER_FEE_CONFIG: ExtensionType := 1
  const TRANSFER_FEE_AMOUNT: ExtensionType := 2
  const MINT_CLOSE_AUTHORITY: ExtensionType := 3
  const CONFIDENTIAL_TRANSFER_MINT: ExtensionType := 4
  const CONFIDENTIAL_TRANSFER_ACCOUNT: ExtensionType := 5
  const DEFAULT_ACCOUNT_STATE: ExtensionType := 6
  const IMMUTABLE_OWNER: ExtensionType := 7
  const MEMO_TRANSFER: ExtensionType := 8
  const NON_TRANSFERABLE: ExtensionType := 9
  const INTEREST_BEARING_CONFIG: ExtensionType := 10
  const CPI_GUARD: ExtensionType := 11
  const PERMANENT_DELEGATE: ExtensionType := 12
  const NON_TRANSFERABLE_ACCOUNT: ExtensionType := 13
  const TRANSFER_HOOK: ExtensionType := 14
  const TRANSFER_HOOK_ACCOUNT: ExtensionType := 15
  const CONFIDENTIAL_TRANSFER_FEE_CONFIG: ExtensionType := 16
  const CONFIDENTIAL_TRANSFER_FEE_AMOUNT: ExtensionType := 17
  const METADATA_POINTER: ExtensionType := 18
  const TOKEN_METADATA: ExtensionType := 19
  const GROUP_POINTER: ExtensionType := 20
  const TOKEN_GROUP: ExtensionType := 21
  const GROUP_MEMBER_POINTER: ExtensionType := 22
  const TOKEN_GROUP_MEMBER: ExtensionType := 23

  datatype AccountType = Uninitialized | Mint | Account

  /** The two base states an account with extensions can hold. */
  datatype Base = MintBase | AccountBase {
    function Size(): nat {
      if MintBase? then MINT_LEN else ACCOUNT_LEN
    }

    function Type(): AccountType {
      if MintBase? then Mint else Account
    }
  }

  const MINT_LEN: nat := 82
  const ACCOUNT_LEN: nat := 165
  const MULTISIG_LEN: nat := 355
  /** Extension entries start right after the longest base state and the account-type byte. */
  const BASE_ACCOUNT_AND_TYPE_LENGTH: nat := ACCOUNT_LEN + 1

  function AccountTypeOf(t: ExtensionType): AccountType {
    if t == UNINITIALIZED then Uninitialized
    else if t in {IMMUTABLE_OWNER, TRANSFER_FEE_AMOUNT, CONFIDENTIAL_TRANSFER_ACCOUNT, MEMO_TRANSFER,
                  NON_TRANSFERABLE_ACCOUNT, TRANSFER_HOOK_ACCOUNT, CPI_GUARD,
                  CONFIDENTIAL_TRANSFER_FEE_AMOUNT} then Account
    else Mint
  }

  /** `ExtensionType::try_from(&[u8])`: two little-endian bytes holding a defined discriminant. */
  function TypeFromBytes(b: seq<byte>): Result<ExtensionType> {
    if |b| == 2 && FromLe16(b) < 24 then Ok(FromLe16(b)) else Err(InvalidAccountData)
  }

  predicate Sized(t: ExtensionType) {
    t != TOKEN_METADATA
  }

  /** Packed length of each fixed-size extension. */
  function TypeLen(t: ExtensionType): nat {
    [0, 108, 8, 32, 65, 295, 1, 0, 1, 0, 52, 1, 32, 0, 64, 1, 129, 64, 64, 0, 64, 72, 64, 68][t]
  }

  function AddTypeAndLength(valueLen: nat): nat {
    valueLen + 4
  }

  function AdjustLenForMultisig(len: nat): nat {
    if len == MULTISIG_LEN then len + 2 else len
  }

  /** The entries kept by the deduplication loop: first occurrences, in order. */
  function Dedupe(ts: seq<ExtensionType>): (d: seq<ExtensionType>)
    ensures forall t :: t in d <==> t in ts
    ensures NoDuplicates(d)
  {
    if ts == [] then []
    else
      var d := Dedupe(ts[..|ts| - 1]);
      var t := ts[|ts| - 1];
      assert ts == ts[..|ts| - 1] + [t];
      if t in d then d else d + [t]
  }

  predicate NoDuplicates<T(==)>(s: seq<T>) {
    forall i, j :: 0 <= i < j < |s| ==> s[i] != s[j]
  }

  /** Bytes taken by one entry of each listed type. */
  function SumTlvLen(ts: seq<ExtensionType>): nat {
    if ts == [] then 0 else SumTlvLen(ts[..|ts| - 1]) + AddTypeAndLength(TypeLen(ts[|ts| - 1]))
  }

  predicate AllSized(ts: seq<ExtensionType>) {
    forall t :: t in ts ==> Sized(t)
  }

  function TryGetTotalTlvLen(ts: seq<ExtensionType>): Result<nat> {
    if AllSized(ts) then Ok(SumTlvLen(Dedupe(ts))) else Err(InvalidArgument)
  }

  function TryCalculateAccountLen(base: Base, ts: seq<ExtensionType>): Result<nat> {
    if ts == [] then Ok(base.Size())
    else
      var size :- TryGetTotalTlvLen(ts);
      Ok(AdjustLenForMultisig(size + BASE_ACCOUNT_AND_TYPE_LENGTH))
  }

  /** The deduplication and summation loops of `try_get_total_tlv_len`. */
  method TotalTlvLen(ts: seq<ExtensionType>) returns (r: Result<nat>)
    ensures r == TryGetTotalTlvLen(ts)
  {
    var kept: seq<ExtensionType> := [];
    for i := 0 to |ts|
      invariant kept == Dedupe(ts[..i])
    {
      assert ts[..i + 1][..i] == ts[..i];
      if ts[i] !in kept {
        kept := kept + [ts[i]];
      }
    }
    assert ts[..|ts|] == ts;
    var sum := 0;
    for i := 0 to |kept|
      invariant sum == SumTlvLen(kept[..i])
      invariant forall k :: 0 <= k < i ==> Sized(kept[k])
    {
      if !Sized(kept[i]) {
        assert kept[i] in ts;
        return Err(InvalidArgument);
      }
      assert kept[..i + 1][..i] == kept[..i];
      sum := sum + AddTypeAndLength(TypeLen(kept[i]));
    }
    assert kept[..|kept|] == kept;
    r := Ok(sum);
  }

  /** The total does not depend on the order of the list or on repetitions. */
  lemma {:induction false} SumIgnoresOrder(a: seq<ExtensionType>, b: seq<ExtensionType>)
    requires NoDuplicates(a) && NoDuplicates(b)
    requires forall t :: t in a <==> t in b
    ensures SumTlvLen(a) == SumTlvLen(b)
    decreases |a|
  {
    hide NoDuplicates;
    if a == [] {
      assert forall i :: 0 <= i < |b| ==> b[i] in a;
    } else {
      var t := a[|a| - 1];
      var a' := a[..|a| - 1];
      assert a == a' + [t];
      assert t in b;
      var i :| 0 <= i < |b| && b[i] == t;
      var b' := b[..i] + b[i + 1..];
      SumRemove(b, i);
      WithoutOne(b, i);
      WithoutOne(a, |a| - 1);
      assert a' + a[|a|..] == a';
      SumIgnoresOrder(a', b');
    }
  }

  /** Leaving one element out of a list without repetitions. */
  lemma WithoutOne(b: seq<ExtensionType>, i: nat)
    requires NoDuplicates(b) && i < |b|
    ensures var b' := b[..i] + b[i + 1..];
            NoDuplicates(b') && forall u :: u in b' <==> u in b && u != b[i]
  {
    var b' := b[..i] + b[i + 1..];
    assert forall j :: 0 <= j < |b'| ==> b'[j] == b[if j < i then j else j + 1];
    forall u | u in b && u != b[i]
      ensures u in b'
    {
      var j :| 0 <= j < |b| && b[j] == u;
      assert b'[if j < i then j else j - 1] == u;
    }
  }

  lemma {:induction false} SumRemove(b: seq<ExtensionType>, i: nat)
    requires i < |b|
    ensures SumTlvLen(b) == SumTlvLen(b[..i] + b[i + 1..]) + AddTypeAndLength(TypeLen(b[i]))
    decreases |b|
  {
    if i == |b| - 1 {
      assert b[..i] + b[i + 1..] == b[..i];
    } else {
      var init := b[..|b| - 1];
      SumRemove(init, i);
      var r := b[..i] + b[i + 1..];
      assert r[..|r| - 1] == init[..i] + init[i + 1..];
      assert r[|r| - 1] == b[|b| - 1];
    }
  }

  /** A length that would be a multisig's is padded by exactly one extension type, left uninitialised. */
  lemma PaddedByOneType(len: nat)
    ensures AdjustLenForMultisig(len) - len == if len == MULTISIG_LEN then |Le16(UNINITIALIZED)| else 0
  {
  }

  /** Which kind of account each type belongs to, by number: eight belong to token accounts, the others to mints. */
  lemma KindsOfTypes(t: ExtensionType)
    ensures AccountTypeOf(t) == Account <==> t as int in [2, 5, 7, 8, 11, 13, 15, 17]
    ensures AccountTypeOf(t) == Uninitialized <==> t == 0
  {
  }

  const KEY_LEN := 32
  const U64_LEN := 8
  const U16_LEN := 2
  const FEE_LEN := U64_LEN + U64_LEN + U16_LEN
  const CIPHERTEXT_LEN := 64
  const AUTHENTICATED_LEN := 36

  /** Lengths as the sums of the fields the extensions declare. */
  lemma LengthsOfFields()
    ensures TypeLen(TRANSFER_FEE_CONFIG) == KEY_LEN + KEY_LEN + U64_LEN + FEE_LEN + FEE_LEN
    ensures TypeLen(TRANSFER_FEE_AMOUNT) == U64_LEN
    ensures TypeLen(MINT_CLOSE_AUTHORITY) == TypeLen(PERMANENT_DELEGATE) == KEY_LEN
    ensures TypeLen(CONFIDENTIAL_TRANSFER_MINT) == KEY_LEN + 1 + KEY_LEN
    ensures TypeLen(CONFIDENTIAL_TRANSFER_ACCOUNT) ==
            1 + KEY_LEN + 3 * CIPHERTEXT_LEN + AUTHENTICATED_LEN + 1 + 1 + 4 * U64_LEN
    ensures TypeLen(CONFIDENTIAL_TRANSFER_FEE_CONFIG) == KEY_LEN + KEY_LEN + 1 + CIPHERTEXT_LEN
    ensures TypeLen(CONFIDENTIAL_TRANSFER_FEE_AMOUNT) == CIPHERTEXT_LEN
    ensures TypeLen(INTEREST_BEARING_CONFIG) == KEY_LEN + U64_LEN + U16_LEN + U64_LEN + U16_LEN
    ensures TypeLen(TRANSFER_HOOK) == TypeLen(METADATA_POINTER) == TypeLen(GROUP_POINTER)
            == TypeLen(GROUP_MEMBER_POINTER) == KEY_LEN + KEY_LEN
    ensures TypeLen(DEFAULT_ACCOUNT_STATE) == TypeLen(MEMO_TRANSFER) == TypeLen(CPI_GUARD)
            == TypeLen(TRANSFER_HOOK_ACCOUNT) == 1
    ensures TypeLen(IMMUTABLE_OWNER) == TypeLen(NON_TRANSFERABLE) == TypeLen(NON_TRANSFERABLE_ACCOUNT) == 0
  {
  }

  /** No calculated length can be mistaken for a multisig. */
  lemma CalculatedLenIsNotMultisig(base: Base, ts: seq<ExtensionType>)
    ensures TryCalculateAccountLen(base, ts) != Ok(MULTISIG_LEN)
  {
  }

  /** The extensions an account must carry for its mint's extensions, in the order they are initialised. */
  function RequiredInitAccountExtensions(mintTypes: seq<ExtensionType>): (r: seq<ExtensionType>)
    ensures forall t :: t in r ==> AccountTypeOf(t) == Account && Sized(t)
    ensures NON_TRANSFERABLE in mintTypes <==> NON_TRANSFERABLE_ACCOUNT in r
    ensures NON_TRANSFERABLE in mintTypes <==> IMMUTABLE_OWNER in r
    ensures TRANSFER_FEE_CONFIG in mintTypes <==> TRANSFER_FEE_AMOUNT in r
    ensures TRANSFER_HOOK in mintTypes <==> TRANSFER_HOOK_ACCOUNT in r
  {
    if mintTypes == [] then []
    else
      var r := RequiredInitAccountExtensions(mintTypes[..|mintTypes| - 1]);
      var t := mintTypes[|mintTypes| - 1];
      assert mintTypes == mintTypes[..|mintTypes| - 1] + [t];
      r + RequiredFor(t)
  }

  /** What one extension of a mint requires. */
  function RequiredFor(t: ExtensionType): seq<ExtensionType> {
    if t == TRANSFER_FEE_CONFIG then [TRANSFER_FEE_AMOUNT]
    else if t == NON_TRANSFERABLE then [NON_TRANSFERABLE_ACCOUNT, IMMUTABLE_OWNER]
    else if t == TRANSFER_HOOK then [TRANSFER_HOOK_ACCOUNT]
    else []
  }

  lemma RequiredSnoc(a: seq<ExtensionType>, t: ExtensionType)
    ensures RequiredInitAccountExtensions([]) == []
    ensures RequiredInitAccountExtensions(a + [t]) == RequiredInitAccountExtensions(a) + RequiredFor(t)
  {
    assert (a + [t])[..|a|] == a;
  }

  lemma RequiredAlone(t: ExtensionType)
    ensures RequiredInitAccountExtensions([t]) == RequiredFor(t)
    ensures RequiredFor(NON_TRANSFERABLE) == [NON_TRANSFERABLE_ACCOUNT, IMMUTABLE_OWNER]
  {
    hide RequiredInitAccountExtensions;
    RequiredSnoc([], t);
    assert [] + [t] == [t] && [] + RequiredFor(t) == RequiredFor(t);
  }

  /** The requirements stand in the order of the mint's extensions. */
  lemma {:induction false} RequiredInOrder(a: seq<ExtensionType>, b: seq<ExtensionType>)
    ensures RequiredInitAccountExtensions(a + b) == RequiredInitAccountExtensions(a) + RequiredInitAccountExtensions(b)
    ensures RequiredInitAccountExtensions([NON_TRANSFERABLE]) == [NON_TRANSFERABLE_ACCOUNT, IMMUTABLE_OWNER]
  {
    hide RequiredInitAccountExtensions, RequiredFor;
    RequiredAlone(NON_TRANSFERABLE);
    if b == [] {
      RequiredSnoc([], UNINITIALIZED);
      assert a + b == a;
    } else {
      var n := |b| - 1;
      RequiredInOrder(a, b[..n]);
      RequiredSnoc(b[..n], b[n]);
      RequiredSnoc(a + b[..n], b[n]);
      assert b == b[..n] + [b[n]] && a + b == a + b[..n] + [b[n]];
    }
  }

  predicate ValidMintCombination(ts: seq<ExtensionType>) {
    var fee := TRANSFER_FEE_CONFIG in ts;
    var conf := CONFIDENTIAL_TRANSFER_MINT in ts;
    var confFee := CONFIDENTIAL_TRANSFER_FEE_CONFIG in ts;
    !(confFee && !(fee && conf)) && !(fee && conf && !confFee)
  }
}
