/**
 What the bytes of an account mean to the ledger: base state and extension entries read as the ledger's records. The
 ledger's unpacking, its updates of a record and of an extension's value, and its growth of an account are what the
 program does to the bytes.
 */
module AccountBytes {
  import opened Bytes
  import opened Common
  import opened ExtensionTypes
  import opened Tlv
  import opened TlvOps
  import opened TlvAccount
  import opened TransferFees
  import B = BaseState
  import LedgerBytes
  import S = LedgerState

  /** The number the ledger knows a key by; the zero key is number 0. */
  type Naming = f: B.Key -> S.Pubkey | f(B.ZERO_KEY) == 0 witness (k: B.Key) => 0

  // ------------------------------------------------------------------ values of extensions

  function ValueOf(es: seq<Entry>, t: ExtensionType): Option<seq<byte>> {
    var i := IndexOf(es, t);
    if i < |es| then Some(es[i].value) else None
  }

  function Name(o: Option<B.Key>, num: Naming): Option<S.Pubkey> {
    match o case Some(k) => Some(num(k)) case None => None
  }

  /** An optional key stored as 32 bytes that are zero when there is none. */
  function KeyIn(es: seq<Entry>, t: ExtensionType, at: nat, num: Naming): Option<S.Pubkey> {
    match ValueOf(es, t)
    case Some(v) =>
      if |v| < at + 32 || v[at..at + 32] == B.ZERO_KEY then None else Some(num(v[at..at + 32]))
    case None => None
  }

  function AmountIn(es: seq<Entry>, t: ExtensionType): u64 {
    match ValueOf(es, t)
    case Some(v) => if |v| == 8 then FromLe64(v) else 0
    case None => 0
  }

  function ByteIn(es: seq<Entry>, t: ExtensionType): byte {
    match ValueOf(es, t)
    case Some(v) => if |v| == 1 then v[0] else 0
    case None => 0
  }

  function FeeAt(v: seq<byte>): TransferFee
    requires |v| == 18
  {
    TransferFee(FromLe64(v[..8]), FromLe64(v[8..16]), FromLe16(v[16..18]))
  }

  function FeeIn(es: seq<Entry>, num: Naming): S.FeeConfig {
    match ValueOf(es, TRANSFER_FEE_CONFIG)
    case Some(v) =>
      if |v| != 108 then S.NO_FEE_CONFIG
      else
        S.FeeConfig(KeyIn(es, TRANSFER_FEE_CONFIG, 0, num), KeyIn(es, TRANSFER_FEE_CONFIG, 32, num),
                    FromLe64(v[64..72]), FeeAt(v[72..90]), FeeAt(v[90..108]))
    case None => S.NO_FEE_CONFIG
  }

  const WITH_AUTHORITY: set<ExtensionType> :=
    {INTEREST_BEARING_CONFIG, TRANSFER_HOOK, METADATA_POINTER, GROUP_POINTER, GROUP_MEMBER_POINTER,
     CONFIDENTIAL_TRANSFER_MINT, CONFIDENTIAL_TRANSFER_FEE_CONFIG}

  function ReadExt(es: seq<Entry>, num: Naming): S.MintExt {
    S.MintExt(KeyIn(es, MINT_CLOSE_AUTHORITY, 0, num), KeyIn(es, PERMANENT_DELEGATE, 0, num),
              ByteIn(es, DEFAULT_ACCOUNT_STATE) == 2, FeeIn(es, num), KeyIn(es, TRANSFER_HOOK, 32, num),
              map t: ExtensionType | t in WITH_AUTHORITY && t in Types(es) :: KeyIn(es, t, 0, num))
  }

  // ------------------------------------------------------------------ records

  function ReadToken(x: B.TokenState, es: seq<Entry>, num: Naming): S.Token {
    S.Token(num(x.mint), num(x.owner), x.amount, Name(x.delegate, num), x.state == B.StateFrozen, x.isNative,
            x.delegatedAmount, Name(x.closeAuthority, num), Types(es), AmountIn(es, TRANSFER_FEE_AMOUNT),
            ByteIn(es, CPI_GUARD) != 0, ByteIn(es, MEMO_TRANSFER) != 0)
  }

  function ReadMint(x: B.MintState, es: seq<Entry>, num: Naming): S.Mint {
    S.Mint(Name(x.mintAuthority, num), x.supply, x.decimals, Name(x.freezeAuthority, num), Types(es), ReadExt(es, num))
  }

  function ReadMultisig(x: B.MultisigState, num: Naming): S.Multisig {
    S.Multisig(x.m, x.n, seq(|x.signers|, i requires 0 <= i < |x.signers| => num(x.signers[i])))
  }

  predicate IsTokenBytes(d: seq<byte>) {
    && Unpack(d, AccountBase).Ok? && B.UnpackToken(d[..ACCOUNT_LEN]).Ok? && Scan(TlvOf(d)).Ok?
  }

  predicate IsMintBytes(d: seq<byte>) {
    && Unpack(d, MintBase).Ok? && B.UnpackMint(d[..MINT_LEN]).Ok? && Scan(TlvOf(d)).Ok?
  }

  predicate IsMultisigBytes(d: seq<byte>) {
    |d| == MULTISIG_LEN && B.UnpackMultisig(d).Ok? && B.UnpackMultisig(d).value.isInitialized
  }

  /** No base state and no account type yet; behind them, possibly, extensions. */
  predicate IsBlankBytes(d: seq<byte>) {
    && AllZero(d[..if |d| > TLV_AT then TLV_AT else |d|]) && Scan(TlvOf(d)).Ok?
    && (|d| == MULTISIG_LEN ==> AllZero(d))
  }

  function DataOf(d: seq<byte>, num: Naming): S.Data {
    if IsTokenBytes(d) then S.TokenData(ReadToken(B.UnpackToken(d[..ACCOUNT_LEN]).value, Scan(TlvOf(d)).value, num))
    else if IsMintBytes(d) then S.MintData(ReadMint(B.UnpackMint(d[..MINT_LEN]).value, Scan(TlvOf(d)).value, num))
    else if IsMultisigBytes(d) then S.MultisigData(ReadMultisig(B.UnpackMultisig(d).value, num))
    else if IsBlankBytes(d) then S.Blank(Types(Scan(TlvOf(d)).value), ReadExt(Scan(TlvOf(d)).value, num))
    else S.Other
  }

  /** The account the ledger sees. */
  function InfoOf(owner: S.Pubkey, lamports: u64, d: seq<byte>, num: Naming): S.Info {
    S.Info(owner, lamports, |d|, DataOf(d, num))
  }

  // ------------------------------------------------------------------ unpacking

  /** Unpacking a token account in the ledger is unpacking its bytes, errors included. */
  lemma UnpackTokenAgrees(owner: S.Pubkey, lamports: u64, d: seq<byte>, num: Naming)
    requires DataOf(d, num) != S.Other
    ensures match Unpack(d, AccountBase)
            case Ok(tlv) => IsTokenBytes(d)
                && S.UnpackToken(InfoOf(owner, lamports, d, num)) == Ok(DataOf(d, num).token)
            case Err(e) => S.UnpackToken(InfoOf(owner, lamports, d, num)) == Err(e)
  {
    hide Scan, B.UnpackToken, B.UnpackMint, B.UnpackMultisig, ReadToken, ReadMint, ReadMultisig, ReadExt;
    B.StatesAreDistinct(d);
    if IsMintBytes(d) && |d| > TLV_AT {
      assert d[MINT_LEN..TYPE_AT][ACCOUNT_STATE_AT - MINT_LEN] == 0;
    }
    if IsBlankBytes(d) && |d| >= ACCOUNT_LEN {
      assert d[..if |d| > TLV_AT then TLV_AT else |d|][ACCOUNT_STATE_AT] == 0;
    }
  }

  /** The same for a mint; where the bytes are a token account, both fail. */
  lemma UnpackMintAgrees(owner: S.Pubkey, lamports: u64, d: seq<byte>, num: Naming)
    requires DataOf(d, num) != S.Other
    ensures match Unpack(d, MintBase)
            case Ok(tlv) => IsMintBytes(d) && S.UnpackMint(InfoOf(owner, lamports, d, num)) == Ok(DataOf(d, num).mint)
            case Err(e) =>
              && S.UnpackMint(InfoOf(owner, lamports, d, num)).Err?
              && (!IsTokenBytes(d) ==> S.UnpackMint(InfoOf(owner, lamports, d, num)) == Err(e))
  {
    hide Scan, B.UnpackToken, B.UnpackMint, B.UnpackMultisig, ReadToken, ReadMint, ReadMultisig, ReadExt;
    B.StatesAreDistinct(d);
    if IsBlankBytes(d) && |d| >= MINT_LEN {
      assert d[..if |d| > TLV_AT then TLV_AT else |d|][MINT_INITIALIZED_AT] == 0;
    }
  }

  /** Reading an account as not initialised succeeds in the ledger exactly when it does on the bytes. */
  lemma UnpackUninitializedAgrees(owner: S.Pubkey, lamports: u64, d: seq<byte>, base: Base, num: Naming)
    requires IsBlankBytes(d)
    ensures match UnpackUninitialized(d, base)
            case Ok(tlv) =>
              Scan(tlv).Ok? && S.UnpackUninitialized(InfoOf(owner, lamports, d, num), base) ==
                  Ok(Types(Scan(tlv).value))
            case Err(e) => S.UnpackUninitialized(InfoOf(owner, lamports, d, num), base) == Err(e)
  {
    hide Scan, FirstExtensionType, DataOf, B.UnpackToken, B.UnpackMint, B.UnpackMultisig, ReadExt;
    BlankIsBlank(d, num);
    var z := d[..if |d| > TLV_AT then TLV_AT else |d|];
    if |d| >= MINT_LEN { assert z[MINT_INITIALIZED_AT] == 0; }
    if |d| >= ACCOUNT_LEN { assert z[ACCOUNT_STATE_AT] == 0; }
    if |d| > TLV_AT {
      assert z[TYPE_AT] == 0 && d[base.Size()..TYPE_AT] == z[base.Size()..TYPE_AT];
    } else {
      ScanNothing();
    }
    FirstScanned(TlvOf(d));
  }

  lemma FirstScanned(tlv: seq<byte>)
    requires Scan(tlv).Ok?
    ensures FirstExtensionType(tlv) == Ok(if Scan(tlv).value == [] then None else Some(Scan(tlv).value[0].ty))
  {
  }

  lemma BlankIsBlank(d: seq<byte>, num: Naming)
    requires IsBlankBytes(d)
    ensures DataOf(d, num) == S.Blank(Types(Scan(TlvOf(d)).value), ReadExt(Scan(TlvOf(d)).value, num))
  {
    hide Scan, B.UnpackToken, B.UnpackMint, ReadToken, ReadMint, ReadMultisig, ReadExt;
    var z := d[..if |d| > TLV_AT then TLV_AT else |d|];
    if |d| >= MINT_LEN { assert z[MINT_INITIALIZED_AT] == 0; }
    if |d| >= ACCOUNT_LEN { assert z[ACCOUNT_STATE_AT] == 0; }
  }

  // ------------------------------------------------------------------ storing a record

  /** The bytes behind a base state of a token account: nothing, or its account type and the extension area. */
  predicate IsTail(rest: seq<byte>) {
    rest == [] || (|rest| > 1 && rest[0] == TypeCode(Account) && Scan(rest[1..]).Ok?
                   && |rest| != MULTISIG_LEN - ACCOUNT_LEN)
  }

  function EntriesIn(rest: seq<byte>): seq<Entry>
    requires IsTail(rest)
  {
    if rest == [] then [] else Scan(rest[1..]).value
  }

  /** Packing an initialised record over any bytes makes the token account the ledger reads from it. */
  lemma StoredTokenReads(x: B.TokenState, dst: seq<byte>, rest: seq<byte>, num: Naming)
    requires |dst| == ACCOUNT_LEN && x.state != B.StateUninitialized && IsTail(rest)
    ensures DataOf(B.PackToken(x, dst) + rest, num) == S.TokenData(ReadToken(x, EntriesIn(rest), num))
  {
    hide B.UnpackToken, B.PackToken, B.PackOption, Le64, ReadToken, DataOf, EntriesIn, IsTail;
    B.TokenFields(x, dst);
    B.TokenRoundTrip(x, dst);
    BaseAndTail(B.PackToken(x, dst), rest, num);
  }

  lemma BaseAndTail(b: seq<byte>, rest: seq<byte>, num: Naming)
    requires |b| == ACCOUNT_LEN && b[ACCOUNT_STATE_AT] != 0 && B.UnpackToken(b).Ok? && IsTail(rest)
    ensures DataOf(b + rest, num) == S.TokenData(ReadToken(B.UnpackToken(b).value, EntriesIn(rest), num))
  {
    hide B.UnpackToken, ReadToken, Scan;
    var d := b + rest;
    assert d[..ACCOUNT_LEN] == b && d[ACCOUNT_STATE_AT] == b[ACCOUNT_STATE_AT];
    if rest == [] {
      ScanNothing();
    } else {
      assert TlvOf(d) == rest[1..] && d[TYPE_AT] == rest[0];
    }
    assert d[ACCOUNT_LEN..TYPE_AT] == [];
  }

  lemma ScanNothing()
    ensures Scan([]) == Ok([])
  {
  }

  /** The same for a mint, with the zero padding before the account type. */
  lemma StoredMintReads(x: B.MintState, dst: seq<byte>, tlv: Option<seq<byte>>, num: Naming)
    requires |dst| == MINT_LEN && x.isInitialized
    requires tlv.Some? ==> tlv.value != [] && Scan(tlv.value).Ok? && |tlv.value| != MULTISIG_LEN - TLV_AT
    ensures var rest :=
              if tlv.None? then [] else Zeros(ACCOUNT_LEN - MINT_LEN) + [TypeCode(AccountType.Mint)] + tlv.value;
            var es := if tlv.None? then [] else Scan(tlv.value).value;
            DataOf(B.PackMint(x, dst) + rest, num) == S.MintData(ReadMint(x, es, num))
  {
    hide B.UnpackMint, B.PackMint, B.UnpackToken, ReadMint, ReadToken, Scan;
    var b := B.PackMint(x, dst);
    var rest := if tlv.None? then [] else Zeros(ACCOUNT_LEN - MINT_LEN) + [TypeCode(AccountType.Mint)] + tlv.value;
    var d := b + rest;
    B.MintRoundTrip(x, dst);
    InitializedByte(x, dst);
    assert d[..MINT_LEN] == b && d[MINT_INITIALIZED_AT] == b[MINT_INITIALIZED_AT];
    if tlv.None? {
      ScanNothing();
    } else {
      assert TlvOf(d) == tlv.value && d[TYPE_AT] == TypeCode(AccountType.Mint);
      assert d[MINT_LEN..TYPE_AT] == Zeros(ACCOUNT_LEN - MINT_LEN);
    }
    B.StatesAreDistinct(d);
  }

  lemma InitializedByte(x: B.MintState, dst: seq<byte>)
    requires |dst| == MINT_LEN && x.isInitialized
    ensures B.PackMint(x, dst)[MINT_INITIALIZED_AT] == 1
  {
    hide B.PackOption, Le64;
  }

  // ------------------------------------------------------------------ storing the value of an extension

  /** Storing an entry changes the value of its type and no other. */
  lemma ValueAfterPut(es: seq<Entry>, e: Entry, t: ExtensionType)
    ensures ValueOf(Put(es, e), t) == if t == e.ty then Some(e.value) else ValueOf(es, t)
  {
    var i, es' := IndexOf(es, e.ty), Put(es, e);
    IndexIs(es', e.ty, i);
    if t != e.ty {
      var j := IndexOf(es, t);
      if j < |es| {
        IndexIs(es', t, j);
      }
    }
  }

  lemma {:induction false} IndexIs(es: seq<Entry>, t: ExtensionType, i: nat)
    requires i < |es| && es[i].ty == t && forall j :: 0 <= j < i ==> es[j].ty != t
    ensures IndexOf(es, t) == i
  {
    if i > 0 { IndexIs(es[1..], t, i - 1); }
  }

  /** The bytes of an account after a value was stored in its extension area. */
  function WithValue(d: seq<byte>, base: Base, e: Entry): (Result<()>, seq<byte>)
    requires |d| > TLV_AT
  {
    var (r, b) := Init(TlvOf(d), base, e.ty, e.value, true);
    (r, d[..TLV_AT] + b)
  }

  /** Storing a value in a token account: the record stays, the list gets the entry. */
  lemma StoredValueReads(d: seq<byte>, es: seq<Entry>, e: Entry, num: Naming)
    requires IsTokenBytes(d) && |d| > TLV_AT && Represents(TlvOf(d), es)
    requires WithValue(d, AccountBase, e).0.Ok?
    ensures DataOf(d, num) == S.TokenData(ReadToken(B.UnpackToken(d[..ACCOUNT_LEN]).value, es, num))
    ensures DataOf(WithValue(d, AccountBase, e).1, num) ==
            S.TokenData(ReadToken(B.UnpackToken(d[..ACCOUNT_LEN]).value, Put(es, e), num))
  {
    hide B.UnpackToken, ReadToken, Init, Represents, Put, Scan;
    RepresentsScan(TlvOf(d), es);
    InitRefines(TlvOf(d), es, AccountBase, e.ty, e.value, true);
    var d' := WithValue(d, AccountBase, e).1;
    assert TlvOf(d') == Init(TlvOf(d), AccountBase, e.ty, e.value, true).1;
    RepresentsScan(TlvOf(d'), Put(es, e));
    assert d'[..ACCOUNT_LEN] == d[..ACCOUNT_LEN] && d'[TYPE_AT] == d[TYPE_AT]
        && d'[ACCOUNT_STATE_AT] == d[ACCOUNT_STATE_AT];
    assert d[ACCOUNT_LEN..TYPE_AT] == [] && d'[ACCOUNT_LEN..TYPE_AT] == [];
  }

  /**
   Storing withheld tokens, the guard or the memo flag is exactly the ledger's update of that field, and of the list of
   types.
   */
  lemma StoredFieldReads(d: seq<byte>, es: seq<Entry>, e: Entry, num: Naming)
    requires IsTokenBytes(d) && |d| > TLV_AT && Represents(TlvOf(d), es)
    requires WithValue(d, AccountBase, e).0.Ok?
    ensures var a, d' := DataOf(d, num).token, WithValue(d, AccountBase, e).1;
            var types := if e.ty in a.types then a.types else a.types + [e.ty];
            && (e.ty == TRANSFER_FEE_AMOUNT && |e.value| == 8 ==>
                  DataOf(d', num) == S.TokenData(a.(types := types, withheld := FromLe64(e.value))))
            && (e.ty == CPI_GUARD && |e.value| == 1 ==>
                  DataOf(d', num) == S.TokenData(a.(types := types, lockCpi := e.value[0] != 0)))
            && (e.ty == MEMO_TRANSFER && |e.value| == 1 ==>
                  DataOf(d', num) == S.TokenData(a.(types := types, memoRequired := e.value[0] != 0)))
  {
    hide B.UnpackToken, Represents, Put, Scan, WithValue, ValueOf, DataOf, FromLe64;
    StoredValueReads(d, es, e, num);
    LedgerBytes.TypesOfPut(es, e);
    ValueAfterPut(es, e, TRANSFER_FEE_AMOUNT);
    ValueAfterPut(es, e, CPI_GUARD);
    ValueAfterPut(es, e, MEMO_TRANSFER);
  }

  /** Storing a value in a mint: the record stays, the list gets the entry. */
  lemma StoredMintValueReads(d: seq<byte>, es: seq<Entry>, e: Entry, num: Naming)
    requires IsMintBytes(d) && |d| > TLV_AT && Represents(TlvOf(d), es)
    requires WithValue(d, MintBase, e).0.Ok?
    ensures DataOf(d, num) == S.MintData(ReadMint(B.UnpackMint(d[..MINT_LEN]).value, es, num))
    ensures DataOf(WithValue(d, MintBase, e).1, num) ==
            S.MintData(ReadMint(B.UnpackMint(d[..MINT_LEN]).value, Put(es, e), num))
  {
    hide B.UnpackMint, B.UnpackToken, ReadMint, ReadToken, Init, Represents, Put, Scan;
    RepresentsScan(TlvOf(d), es);
    InitRefines(TlvOf(d), es, MintBase, e.ty, e.value, true);
    var d' := WithValue(d, MintBase, e).1;
    assert TlvOf(d') == Init(TlvOf(d), MintBase, e.ty, e.value, true).1;
    RepresentsScan(TlvOf(d'), Put(es, e));
    assert d'[..MINT_LEN] == d[..MINT_LEN] && d'[TYPE_AT] == d[TYPE_AT];
    assert d'[MINT_INITIALIZED_AT] == d[MINT_INITIALIZED_AT] && d'[MINT_LEN..TYPE_AT] == d[MINT_LEN..TYPE_AT];
    B.StatesAreDistinct(d);
    B.StatesAreDistinct(d');
  }

  /** Storing the fee configuration is the ledger's update of it: the withheld tokens and both fees are read back. */
  lemma StoredFeeReads(d: seq<byte>, es: seq<Entry>, e: Entry, num: Naming)
    requires IsMintBytes(d) && |d| > TLV_AT && Represents(TlvOf(d), es)
    requires WithValue(d, MintBase, e).0.Ok? && e.ty == TRANSFER_FEE_CONFIG && |e.value| == 108
    ensures var m, d' := DataOf(d, num).mint, WithValue(d, MintBase, e).1;
            DataOf(d', num) == S.MintData(m.(types := if e.ty in m.types then m.types else m.types + [e.ty],
                                             ext := m.ext.(fee := FeeIn([e], num))))
  {
    hide B.UnpackMint, B.UnpackToken, Represents, Put, Scan, WithValue, DataOf, ReadExt, FeeIn;
    StoredMintValueReads(d, es, e, num);
    LedgerBytes.TypesOfPut(es, e);
    FeePutReads(es, e, num);
  }

  lemma FeePutReads(es: seq<Entry>, e: Entry, num: Naming)
    requires e.ty == TRANSFER_FEE_CONFIG
    ensures ReadExt(Put(es, e), num) == ReadExt(es, num).(fee := FeeIn([e], num))
  {
    hide Put, ValueOf, FromLe64, FeeAt;
    LedgerBytes.TypesOfPut(es, e);
    ValueAlone(e);
    forall t
      ensures ValueOf(Put(es, e), t) == if t == e.ty then Some(e.value) else ValueOf(es, t)
    {
      ValueAfterPut(es, e, t);
    }
  }

  lemma ValueAlone(e: Entry)
    ensures ValueOf([e], e.ty) == Some(e.value)
  {
  }

  // ------------------------------------------------------------------ growth

  /** Growing an account and setting its type changes its length and nothing the ledger reads from it. */
  lemma GrowthReads(d: seq<byte>, es: seq<Entry>, needed: nat, num: Naming)
    requires Holds(d, AccountBase, es) && B.UnpackToken(d[..ACCOUNT_LEN]).Ok?
    requires needed > |d| && needed > TLV_AT && needed != MULTISIG_LEN
    ensures var r := SetAccountType(Resized(d, needed), AccountBase);
            r.Ok? && |r.value| == needed && DataOf(r.value, num) == DataOf(d, num)
  {
    hide B.UnpackToken, ReadToken, SetAccountType, Resized, Scan, Represents;
    LedgerBytes.GrowthOnBytes(d, es, needed);
    var d' := SetAccountType(Resized(d, needed), AccountBase).value;
    RepresentsScan(TlvOf(d), es);
    RepresentsScan(TlvOf(d'), es);
  }
}
