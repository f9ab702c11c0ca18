/**
 Instruction bytes: the packer and the two independent decoders (`instruction.rs`, `pod_instruction.rs`).
 */
module Instructions {
  import opened Bytes
  import opened Common
  import opened ExtensionTypes
  import opened BaseState

  datatype AuthorityType =
    | MintTokens | FreezeAccountAuthority | AccountOwner | CloseAccountAuthority | TransferFeeConfig
    | WithheldWithdraw | CloseMint | InterestRate | PermanentDelegate | ConfidentialTransferMint
    | TransferHookProgramId | ConfidentialTransferFeeConfig | MetadataPointer | GroupPointer
    | GroupMemberPointer

  /** Instructions without further data. The ones named `...Extension` prefix the instructions of an extension. */
  datatype Plain =
    | InitializeAccount | Revoke | CloseAccount | FreezeAccount | ThawAccount | SyncNative
    | InitializeImmutableOwner | TransferFeeExtension | ConfidentialTransferExtension
    | DefaultAccountStateExtension | MemoTransferExtension | CreateNativeMint | InitializeNonTransferableMint
    | InterestBearingMintExtension | CpiGuardExtension | TransferHookExtension
    | ConfidentialTransferFeeExtension | WithdrawExcessLamports | MetadataPointerExtension
    | GroupPointerExtension | GroupMemberPointerExtension

  datatype TokenInstruction =
    | Simple(kind: Plain)
    | InitializeMint(decimals: u8, mintAuthority: Key, freezeAuthority: Option<Key>)
    | InitializeMint2(decimals: u8, mintAuthority: Key, freezeAuthority: Option<Key>)
    | InitializeMultisig(m: u8) | InitializeMultisig2(m: u8)
    | Transfer(amount: u64) | Approve(amount: u64) | MintTo(amount: u64) | Burn(amount: u64)
    | AmountToUiAmount(amount: u64)
    | SetAuthority(authorityType: AuthorityType, newAuthority: Option<Key>)
    | TransferChecked(amount: u64, decimals: u8) | ApproveChecked(amount: u64, decimals: u8)
    | MintToChecked(amount: u64, decimals: u8) | BurnChecked(amount: u64, decimals: u8)
    | InitializeAccount2(owner: Key) | InitializeAccount3(owner: Key)
    | InitializePermanentDelegate(delegate: Key)
    | InitializeMintCloseAuthority(closeAuthority: Option<Key>)
    | GetAccountDataSize(extensionTypes: seq<ExtensionType>) | Reallocate(extensionTypes: seq<ExtensionType>)
    | UiAmountToAmount(uiAmount: Utf8)

  // ------------------------------------------------------------------ one-byte codes

  function AuthorityCode(t: AuthorityType): u8 {
    match t
    case MintTokens => 0
    case FreezeAccountAuthority => 1
    case AccountOwner => 2
    case CloseAccountAuthority => 3
    case TransferFeeConfig => 4
    case WithheldWithdraw => 5
    case CloseMint => 6
    case InterestRate => 7
    case PermanentDelegate => 8
    case ConfidentialTransferMint => 9
    case TransferHookProgramId => 10
    case ConfidentialTransferFeeConfig => 11
    case MetadataPointer => 12
    case GroupPointer => 13
    case GroupMemberPointer => 14
  }

  function AuthorityFrom(code: u8): Result<AuthorityType> {
    if code == 0 then Ok(MintTokens)
    else if code == 1 then Ok(FreezeAccountAuthority)
    else if code == 2 then Ok(AccountOwner)
    else if code == 3 then Ok(CloseAccountAuthority)
    else if code == 4 then Ok(TransferFeeConfig)
    else if code == 5 then Ok(WithheldWithdraw)
    else if code == 6 then Ok(CloseMint)
    else if code == 7 then Ok(InterestRate)
    else if code == 8 then Ok(PermanentDelegate)
    else if code == 9 then Ok(ConfidentialTransferMint)
    else if code == 10 then Ok(TransferHookProgramId)
    else if code == 11 then Ok(ConfidentialTransferFeeConfig)
    else if code == 12 then Ok(MetadataPointer)
    else if code == 13 then Ok(GroupPointer)
    else if code == 14 then Ok(GroupMemberPointer)
    else Err(InvalidInstruction)
  }

  function PlainTag(p: Plain): u8 {
    match p
    case InitializeAccount => 1
    case Revoke => 5
    case CloseAccount => 9
    case FreezeAccount => 10
    case ThawAccount => 11
    case SyncNative => 17
    case InitializeImmutableOwner => 22
    case TransferFeeExtension => 26
    case ConfidentialTransferExtension => 27
    case DefaultAccountStateExtension => 28
    case MemoTransferExtension => 30
    case CreateNativeMint => 31
    case InitializeNonTransferableMint => 32
    case InterestBearingMintExtension => 33
    case CpiGuardExtension => 34
    case TransferHookExtension => 36
    case ConfidentialTransferFeeExtension => 37
    case WithdrawExcessLamports => 38
    case MetadataPointerExtension => 39
    case GroupPointerExtension => 40
    case GroupMemberPointerExtension => 41
  }

  function PlainFrom(tag: u8): Option<Plain> {
    if tag == 1 then Some(InitializeAccount)
    else if tag == 5 then Some(Revoke)
    else if tag == 9 then Some(CloseAccount)
    else if tag == 10 then Some(FreezeAccount)
    else if tag == 11 then Some(ThawAccount)
    else if tag == 17 then Some(SyncNative)
    else if tag == 22 then Some(InitializeImmutableOwner)
    else if tag == 26 then Some(TransferFeeExtension)
    else if tag == 27 then Some(ConfidentialTransferExtension)
    else if tag == 28 then Some(DefaultAccountStateExtension)
    else if tag == 30 then Some(MemoTransferExtension)
    else if tag == 31 then Some(CreateNativeMint)
    else if tag == 32 then Some(InitializeNonTransferableMint)
    else if tag == 33 then Some(InterestBearingMintExtension)
    else if tag == 34 then Some(CpiGuardExtension)
    else if tag == 36 then Some(TransferHookExtension)
    else if tag == 37 then Some(ConfidentialTransferFeeExtension)
    else if tag == 38 then Some(WithdrawExcessLamports)
    else if tag == 39 then Some(MetadataPointerExtension)
    else if tag == 40 then Some(GroupPointerExtension)
    else if tag == 41 then Some(GroupMemberPointerExtension)
    else None
  }

  lemma AuthorityCodes(t: AuthorityType, code: u8)
    ensures AuthorityFrom(AuthorityCode(t)) == Ok(t)
    ensures AuthorityFrom(code).Ok? ==> AuthorityCode(AuthorityFrom(code).value) == code
  {
  }

  lemma PlainTags(p: Plain, tag: u8)
    ensures PlainFrom(PlainTag(p)) == Some(p)
    ensures PlainFrom(tag).Some? ==> PlainTag(PlainFrom(tag).value) == tag
  {
  }

  // ------------------------------------------------------------------ text

  predicate Continuation(b: byte) {
    0x80 <= b <= 0xBF
  }

  /** Length of the well-formed UTF-8 sequence at the front, or 0 (Table 3-7 of the Unicode Standard). */
  function Utf8Front(b: seq<byte>): (n: nat)
    ensures n <= |b|
  {
    if |b| >= 1 && b[0] <= 0x7F then 1
    else if |b| >= 2 && 0xC2 <= b[0] <= 0xDF && Continuation(b[1]) then 2
    else if |b| >= 3 && Continuation(b[1]) && Continuation(b[2])
            && ((b[0] == 0xE0 && b[1] >= 0xA0) || (b[0] == 0xED && b[1] <= 0x9F)
                || 0xE1 <= b[0] <= 0xEC || 0xEE <= b[0] <= 0xEF) then 3
    else if |b| >= 4 && Continuation(b[1]) && Continuation(b[2]) && Continuation(b[3])
            && ((b[0] == 0xF0 && b[1] >= 0x90) || 0xF1 <= b[0] <= 0xF3 || (b[0] == 0xF4 && b[1] <= 0x8F)) then 4
    else 0
  }

  predicate ValidUtf8(b: seq<byte>) {
    b == [] || (Utf8Front(b) > 0 && ValidUtf8(b[Utf8Front(b)..]))
  }

  /** A string slice, held as its bytes. */
  type Utf8 = b: seq<byte> | ValidUtf8(b) witness []

  // ------------------------------------------------------------------ packing

  function PackKeyOption(o: Option<Key>): seq<byte> {
    match o case Some(k) => [1] + k case None => [0]
  }

  function PackTypes(ts: seq<ExtensionType>): seq<byte> {
    if ts == [] then [] else PackTypes(ts[..|ts| - 1]) + Le16(ts[|ts| - 1])
  }

  function Tag(i: TokenInstruction): u8 {
    match i
    case Simple(p) => PlainTag(p)
    case InitializeMint(_, _, _) => 0
    case InitializeMultisig(_) => 2
    case Transfer(_) => 3
    case Approve(_) => 4
    case SetAuthority(_, _) => 6
    case MintTo(_) => 7
    case Burn(_) => 8
    case TransferChecked(_, _) => 12
    case ApproveChecked(_, _) => 13
    case MintToChecked(_, _) => 14
    case BurnChecked(_, _) => 15
    case InitializeAccount2(_) => 16
    case InitializeAccount3(_) => 18
    case InitializeMultisig2(_) => 19
    case InitializeMint2(_, _, _) => 20
    case GetAccountDataSize(_) => 21
    case AmountToUiAmount(_) => 23
    case UiAmountToAmount(_) => 24
    case InitializeMintCloseAuthority(_) => 25
    case Reallocate(_) => 29
    case InitializePermanentDelegate(_) => 35
  }

  function Payload(i: TokenInstruction): seq<byte> {
    match i
    case Simple(_) => []
    case InitializeMint(d, k, o) => [d] + k + PackKeyOption(o)
    case InitializeMint2(d, k, o) => [d] + k + PackKeyOption(o)
    case InitializeMultisig(m) => [m]
    case InitializeMultisig2(m) => [m]
    case Transfer(a) => Le64(a)
    case Approve(a) => Le64(a)
    case MintTo(a) => Le64(a)
    case Burn(a) => Le64(a)
    case AmountToUiAmount(a) => Le64(a)
    case SetAuthority(t, o) => [AuthorityCode(t)] + PackKeyOption(o)
    case TransferChecked(a, d) => Le64(a) + [d]
    case ApproveChecked(a, d) => Le64(a) + [d]
    case MintToChecked(a, d) => Le64(a) + [d]
    case BurnChecked(a, d) => Le64(a) + [d]
    case InitializeAccount2(k) => k
    case InitializeAccount3(k) => k
    case InitializePermanentDelegate(k) => k
    case InitializeMintCloseAuthority(o) => PackKeyOption(o)
    case GetAccountDataSize(ts) => PackTypes(ts)
    case Reallocate(ts) => PackTypes(ts)
    case UiAmountToAmount(s) => s
  }

  // One instruction of each kind, in the order the program declares them.

  function DeclaredFirst(k: Key, o: Option<Key>, n: u64, b: u8, a: AuthorityType): seq<TokenInstruction> {
    [ InitializeMint(b, k, o), Simple(InitializeAccount), InitializeMultisig(b), Transfer(n), Approve(n),
      Simple(Revoke), SetAuthority(a, o), MintTo(n), Burn(n), Simple(CloseAccount),
      Simple(FreezeAccount), Simple(ThawAccount), TransferChecked(n, b), ApproveChecked(n, b) ]
  }

  function DeclaredNext(k: Key, o: Option<Key>, n: u64, b: u8, ts: seq<ExtensionType>, text: Utf8)
    : seq<TokenInstruction>
  {
    [ MintToChecked(n, b), BurnChecked(n, b), InitializeAccount2(k), Simple(SyncNative), InitializeAccount3(k),
      InitializeMultisig2(b), InitializeMint2(b, k, o), GetAccountDataSize(ts), Simple(InitializeImmutableOwner),
      AmountToUiAmount(n), UiAmountToAmount(text), InitializeMintCloseAuthority(o), Simple(TransferFeeExtension),
      Simple(ConfidentialTransferExtension) ]
  }

  function DeclaredLast(k: Key, ts: seq<ExtensionType>): seq<TokenInstruction> {
    [ Simple(DefaultAccountStateExtension), Reallocate(ts), Simple(MemoTransferExtension), Simple(CreateNativeMint),
      Simple(InitializeNonTransferableMint), Simple(InterestBearingMintExtension), Simple(CpiGuardExtension),
      InitializePermanentDelegate(k), Simple(TransferHookExtension), Simple(ConfidentialTransferFeeExtension),
      Simple(WithdrawExcessLamports), Simple(MetadataPointerExtension), Simple(GroupPointerExtension),
      Simple(GroupMemberPointerExtension) ]
  }

  lemma FirstInOrder(k: Key, o: Option<Key>, n: u64, b: u8, a: AuthorityType, at: nat)
    requires at < |DeclaredFirst(k, o, n, b, a)|
    ensures Tag(DeclaredFirst(k, o, n, b, a)[at]) as int == at
  {
  }

  lemma NextInOrder(k: Key, o: Option<Key>, n: u64, b: u8, ts: seq<ExtensionType>, text: Utf8, at: nat)
    requires at < |DeclaredNext(k, o, n, b, ts, text)|
    ensures Tag(DeclaredNext(k, o, n, b, ts, text)[at]) as int == 14 + at
  {
  }

  lemma LastInOrder(k: Key, ts: seq<ExtensionType>, at: nat)
    requires at < |DeclaredLast(k, ts)|
    ensures Tag(DeclaredLast(k, ts)[at]) as int == 28 + at
  {
  }

  /** The first byte of a packed instruction is its place among the 42 declared. */
  lemma TagsInOrder(k: Key, o: Option<Key>, n: u64, b: u8, a: AuthorityType, ts: seq<ExtensionType>, text: Utf8,
                    at: nat)
    requires at < 42
    ensures var ds := DeclaredFirst(k, o, n, b, a) + DeclaredNext(k, o, n, b, ts, text) + DeclaredLast(k, ts);
            |ds| == 42 && Pack(ds[at])[0] as int == at
  {
    hide Payload, Tag;
    if at < 14 {
      FirstInOrder(k, o, n, b, a, at);
    } else if at < 28 {
      NextInOrder(k, o, n, b, ts, text, at - 14);
    } else {
      LastInOrder(k, ts, at - 28);
    }
  }

  const AUTHORITIES := [MintTokens, FreezeAccountAuthority, AccountOwner, CloseAccountAuthority, TransferFeeConfig,
                        WithheldWithdraw, CloseMint, InterestRate, PermanentDelegate, ConfidentialTransferMint,
                        TransferHookProgramId, ConfidentialTransferFeeConfig, MetadataPointer, GroupPointer,
                        GroupMemberPointer]

  /** So is the code of an authority. */
  lemma AuthorityCodesInOrder(at: nat)
    requires at < |AUTHORITIES|
    ensures AuthorityCode(AUTHORITIES[at]) as int == at
  {
  }

  /** `TokenInstruction::pack` */
  function Pack(i: TokenInstruction): seq<byte> {
    [Tag(i)] + Payload(i)
  }

  /** The part of `pack` that pushes one extension type after another. */
  method PushTypes(buf: seq<byte>, ts: seq<ExtensionType>) returns (r: seq<byte>)
    ensures r == buf + PackTypes(ts)
  {
    r := buf;
    for i := 0 to |ts|
      invariant r == buf + PackTypes(ts[..i])
    {
      r := r + Le16(ts[i]);
      assert ts[..i + 1][..i] == ts[..i];
    }
    assert ts[..|ts|] == ts;
  }

  /** `pack_pubkey_option` */
  method PushKeyOption(buf: seq<byte>, o: Option<Key>) returns (r: seq<byte>)
    ensures r == buf + PackKeyOption(o)
  {
    if o.Some? {
      r := buf + [1];
      r := r + o.value;
      assert r == buf + ([1] + o.value);
    } else {
      r := buf + [0];
    }
  }

  /** `pack`, pushing the tag and then one field after another onto a growing buffer. */
  method PackOnto(i: TokenInstruction) returns (buf: seq<byte>)
    ensures buf == Pack(i)
  {
    hide PackKeyOption, PackTypes, Le64, PlainTag, AuthorityCode;
    buf := [Tag(i)];
    match i
    case Simple(_) =>
    case InitializeMint(d, k, o) =>
      buf := buf + [d];
      buf := buf + k;
      buf := PushKeyOption(buf, o);
    case InitializeMint2(d, k, o) =>
      buf := buf + [d];
      buf := buf + k;
      buf := PushKeyOption(buf, o);
    case InitializeMultisig(m) => buf := buf + [m];
    case InitializeMultisig2(m) => buf := buf + [m];
    case Transfer(a) => buf := buf + Le64(a);
    case Approve(a) => buf := buf + Le64(a);
    case MintTo(a) => buf := buf + Le64(a);
    case Burn(a) => buf := buf + Le64(a);
    case AmountToUiAmount(a) => buf := buf + Le64(a);
    case SetAuthority(t, o) =>
      buf := buf + [AuthorityCode(t)];
      buf := PushKeyOption(buf, o);
    case TransferChecked(a, d) =>
      buf := buf + Le64(a);
      buf := buf + [d];
    case ApproveChecked(a, d) =>
      buf := buf + Le64(a);
      buf := buf + [d];
    case MintToChecked(a, d) =>
      buf := buf + Le64(a);
      buf := buf + [d];
    case BurnChecked(a, d) =>
      buf := buf + Le64(a);
      buf := buf + [d];
    case InitializeAccount2(k) => buf := buf + k;
    case InitializeAccount3(k) => buf := buf + k;
    case InitializePermanentDelegate(k) => buf := buf + k;
    case InitializeMintCloseAuthority(o) => buf := PushKeyOption(buf, o);
    case GetAccountDataSize(ts) => buf := PushTypes(buf, ts);
    case Reallocate(ts) => buf := PushTypes(buf, ts);
    case UiAmountToAmount(s) => buf := buf + s;
    assert buf == [Tag(i)] + Payload(i);
  }

  // ------------------------------------------------------------------ `TokenInstruction::unpack`

  function UnpackKey(b: seq<byte>): (r: Result<(Key, seq<byte>)>)
    ensures r.Ok? ==> b == r.value.0 + r.value.1
  {
    if |b| < 32 then Err(InvalidInstruction) else Ok((b[..32], b[32..]))
  }

  function UnpackKeyOption(b: seq<byte>): Result<Option<Key>> {
    if b != [] && b[0] == 0 then Ok(None)
    else if b != [] && b[0] == 1 then
      var (k, _) :- UnpackKey(b[1..]);
      Ok(Some(k))
    else Err(InvalidInstruction)
  }

  function UnpackU64(b: seq<byte>): Result<u64> {
    if |b| < 8 then Err(InvalidInstruction) else Ok(FromLe64(b[..8]))
  }

  function UnpackAmountDecimals(b: seq<byte>): Result<(u64, u8)> {
    var amount :- UnpackU64(b);
    if |b| < 9 then Err(InvalidInstruction) else Ok((amount, b[8]))
  }

  /** The `chunks(2)` loop; a last chunk of one byte is not a type. */
  function UnpackTypes(b: seq<byte>): Result<seq<ExtensionType>> {
    if b == [] then Ok([])
    else if |b| < 2 then Err(InvalidAccountData)
    else
      var t :- TypeFromBytes(b[..2]);
      var ts :- UnpackTypes(b[2..]);
      Ok([t] + ts)
  }

  function UnpackInitializeMint(b: seq<byte>): Result<(u8, Key, Option<Key>)> {
    if b == [] then Err(InvalidInstruction)
    else
      var (k, rest) :- UnpackKey(b[1..]);
      var o :- UnpackKeyOption(rest);
      Ok((b[0], k, o))
  }

  function UnpackSetAuthority(b: seq<byte>): Result<(AuthorityType, Option<Key>)> {
    if b == [] then Err(InvalidInstruction)
    else
      var t :- AuthorityFrom(b[0]);
      var o :- UnpackKeyOption(b[1..]);
      Ok((t, o))
  }

  function FirstByte(b: seq<byte>): Result<u8> {
    if b == [] then Err(InvalidInstruction) else Ok(b[0])
  }

  /** The bytes behind the tag. */
  function UnpackBody(tag: u8, b: seq<byte>): Result<TokenInstruction> {
    if PlainFrom(tag).Some? then Ok(Simple(PlainFrom(tag).value))
    else if tag == 0 || tag == 20 then
      var (d, k, o) :- UnpackInitializeMint(b);
      Ok(if tag == 0 then InitializeMint(d, k, o) else InitializeMint2(d, k, o))
    else if tag == 2 || tag == 19 then
      var m :- FirstByte(b);
      Ok(if tag == 2 then InitializeMultisig(m) else InitializeMultisig2(m))
    else if tag == 3 || tag == 4 || tag == 7 || tag == 8 || tag == 23 then
      var a :- UnpackU64(b);
      Ok(if tag == 3 then Transfer(a) else if tag == 4 then Approve(a) else if tag == 7 then MintTo(a)
         else if tag == 8 then Burn(a) else AmountToUiAmount(a))
    else if tag == 6 then
      var (t, o) :- UnpackSetAuthority(b);
      Ok(SetAuthority(t, o))
    else if 12 <= tag <= 15 then
      var (a, d) :- UnpackAmountDecimals(b);
      Ok(if tag == 12 then TransferChecked(a, d) else if tag == 13 then ApproveChecked(a, d)
         else if tag == 14 then MintToChecked(a, d) else BurnChecked(a, d))
    else if tag == 16 || tag == 18 || tag == 35 then
      var (k, _) :- UnpackKey(b);
      Ok(if tag == 16 then InitializeAccount2(k) else if tag == 18 then InitializeAccount3(k)
         else InitializePermanentDelegate(k))
    else if tag == 21 || tag == 29 then
      var ts :- UnpackTypes(b);
      Ok(if tag == 21 then GetAccountDataSize(ts) else Reallocate(ts))
    else if tag == 24 then if ValidUtf8(b) then Ok(UiAmountToAmount(b)) else Err(InvalidInstruction)
    else if tag == 25 then
      var o :- UnpackKeyOption(b);
      Ok(InitializeMintCloseAuthority(o))
    else Err(InvalidInstruction)
  }

  /** `TokenInstruction::unpack` */
  function Unpack(b: seq<byte>): Result<TokenInstruction> {
    if b == [] then Err(InvalidInstruction) else UnpackBody(b[0], b[1..])
  }

  /** The loop over two-byte chunks of tags 21 and 29. */
  method UnpackTypesLoop(b: seq<byte>) returns (r: Result<seq<ExtensionType>>)
    ensures r == UnpackTypes(b)
  {
    var ts: seq<ExtensionType> := [];
    var at := 0;
    assert b[0..] == b && (UnpackTypes(b).Ok? ==> [] + UnpackTypes(b).value == UnpackTypes(b).value);
    while at < |b|
      invariant at <= |b|
      invariant UnpackTypes(b) ==
                match UnpackTypes(b[at..]) case Err(e) => Err(e) case Ok(more) => Ok(ts + more)
    {
      var end := if at + 2 <= |b| then at + 2 else |b|;
      if end < at + 2 {
        return Err(InvalidAccountData);
      }
      assert b[at..][..2] == b[at..end] && b[at..][2..] == b[end..];
      var t :- TypeFromBytes(b[at..end]);
      assert UnpackTypes(b[end..]).Ok? ==>
          ts + ([t] + UnpackTypes(b[end..]).value) == ts + [t] + UnpackTypes(b[end..]).value;
      ts := ts + [t];
      at := end;
    }
    assert ts + [] == ts;
    r := Ok(ts);
  }

  // ------------------------------------------------------------------ round trips

  lemma {:induction false} TypesRoundTrip(ts: seq<ExtensionType>)
    ensures UnpackTypes(PackTypes(ts)) == Ok(ts)
  {
    if ts != [] {
      PackTypesFront(ts);
      var rest := PackTypes(ts[1..]);
      assert (Le16(ts[0]) + rest)[..2] == Le16(ts[0]) && (Le16(ts[0]) + rest)[2..] == rest;
      Le16RoundTrip(ts[0], [0, 0]);
      TypesRoundTrip(ts[1..]);
      assert [ts[0]] + ts[1..] == ts;
    }
  }

  lemma {:induction false} PackTypesFront(ts: seq<ExtensionType>)
    requires ts != []
    ensures PackTypes(ts) == Le16(ts[0]) + PackTypes(ts[1..])
  {
    var n := |ts| - 1;
    if n == 0 {
      assert PackTypes(ts[..0]) == [] && PackTypes(ts[1..]) == [];
      assert [] + Le16(ts[0]) == Le16(ts[0]) + [];
    } else {
      PackTypesFront(ts[..n]);
      assert ts[..n][1..] == ts[1..][..n - 1];
    }
  }

  lemma {:induction false} TypesExact(b: seq<byte>)
    requires UnpackTypes(b).Ok?
    ensures PackTypes(UnpackTypes(b).value) == b
  {
    if b != [] {
      TypesExact(b[2..]);
      var ts := UnpackTypes(b).value;
      PackTypesFront(ts);
      assert ts[1..] == UnpackTypes(b[2..]).value;
      Le16RoundTrip(0, b[..2]);
      assert b == b[..2] + b[2..];
    }
  }

  lemma KeyRoundTrip(k: Key)
    ensures UnpackKey(k) == Ok((k, []))
  {
    assert k[..32] == k && k[32..] == [];
  }

  lemma KeyOptionRoundTrip(o: Option<Key>)
    ensures UnpackKeyOption(PackKeyOption(o)) == Ok(o)
  {
    if o.Some? {
      assert PackKeyOption(o)[1..] == o.value && o.value[..32] == o.value;
    }
  }

  lemma KeyOptionPrefix(b: seq<byte>)
    requires UnpackKeyOption(b).Ok?
    ensures PackKeyOption(UnpackKeyOption(b).value) <= b
  {
    if b[0] == 1 {
      assert b[..33] == [1] + b[1..][..32];
    } else {
      assert b[..1] == [0];
    }
  }

  lemma InitializeMintRoundTrip(d: u8, k: Key, o: Option<Key>)
    ensures UnpackInitializeMint([d] + k + PackKeyOption(o)) == Ok((d, k, o))
  {
    var b := [d] + k + PackKeyOption(o);
    assert b[1..] == k + PackKeyOption(o);
    assert (k + PackKeyOption(o))[..32] == k && (k + PackKeyOption(o))[32..] == PackKeyOption(o);
    KeyOptionRoundTrip(o);
  }

  lemma InitializeMintPrefix(b: seq<byte>)
    requires UnpackInitializeMint(b).Ok?
    ensures var (d, k, o) := UnpackInitializeMint(b).value; [d] + k + PackKeyOption(o) <= b
  {
    var rest := b[1..][32..];
    KeyOptionPrefix(rest);
    assert b == [b[0]] + b[1..][..32] + rest;
  }

  lemma SetAuthorityRoundTrip(t: AuthorityType, o: Option<Key>)
    ensures UnpackSetAuthority([AuthorityCode(t)] + PackKeyOption(o)) == Ok((t, o))
  {
    AuthorityCodes(t, 0);
    KeyOptionRoundTrip(o);
    assert ([AuthorityCode(t)] + PackKeyOption(o))[1..] == PackKeyOption(o);
  }

  lemma SetAuthorityPrefix(b: seq<byte>)
    requires UnpackSetAuthority(b).Ok?
    ensures var (t, o) := UnpackSetAuthority(b).value; [AuthorityCode(t)] + PackKeyOption(o) <= b
  {
    AuthorityCodes(MintTokens, b[0]);
    KeyOptionPrefix(b[1..]);
    assert b == [b[0]] + b[1..];
  }

  lemma AmountRoundTrip(a: u64, d: u8)
    ensures UnpackU64(Le64(a)) == Ok(a) && UnpackAmountDecimals(Le64(a) + [d]) == Ok((a, d))
  {
    Le64RoundTrip(a, Le64(a));
    assert Le64(a)[..8] == Le64(a) && (Le64(a) + [d])[..8] == Le64(a);
  }

  lemma AmountPrefix(b: seq<byte>)
    requires |b| >= 8
    ensures Le64(FromLe64(b[..8])) <= b && (|b| >= 9 ==> Le64(FromLe64(b[..8])) + [b[8]] <= b)
  {
    Le64RoundTrip(0, b[..8]);
  }

  lemma PlainRoundTrip(p: Plain)
    ensures UnpackBody(PlainTag(p), []) == Ok(Simple(p))
  {
    hide PlainTag, PlainFrom;
    PlainTags(p, 0);
  }

  predicate IsAmount(i: TokenInstruction) {
    || i.Transfer? || i.Approve? || i.MintTo? || i.Burn? || i.AmountToUiAmount?
    || i.TransferChecked? || i.ApproveChecked? || i.MintToChecked? || i.BurnChecked?
  }

  lemma AmountBody(i: TokenInstruction)
    requires IsAmount(i)
    ensures UnpackBody(Tag(i), Payload(i)) == Ok(i)
  {
    hide UnpackU64, UnpackAmountDecimals, Le64;
    match i
    case Transfer(a) => AmountRoundTrip(a, 0);
    case Approve(a) => AmountRoundTrip(a, 0);
    case MintTo(a) => AmountRoundTrip(a, 0);
    case Burn(a) => AmountRoundTrip(a, 0);
    case AmountToUiAmount(a) => AmountRoundTrip(a, 0);
    case TransferChecked(a, d) => AmountRoundTrip(a, d);
    case ApproveChecked(a, d) => AmountRoundTrip(a, d);
    case MintToChecked(a, d) => AmountRoundTrip(a, d);
    case BurnChecked(a, d) => AmountRoundTrip(a, d);
  }

  lemma KeyBody(i: TokenInstruction)
    requires i.InitializeMint? || i.InitializeMint2? || i.SetAuthority? || i.InitializeAccount2?
        || i.InitializeAccount3?
             || i.InitializePermanentDelegate? || i.InitializeMintCloseAuthority?
    ensures UnpackBody(Tag(i), Payload(i)) == Ok(i)
  {
    hide UnpackInitializeMint, UnpackSetAuthority, UnpackKeyOption, UnpackKey, PackKeyOption, AuthorityCode;
    match i
    case InitializeMint(d, k, o) => InitializeMintRoundTrip(d, k, o);
    case InitializeMint2(d, k, o) => InitializeMintRoundTrip(d, k, o);
    case SetAuthority(t, o) => SetAuthorityRoundTrip(t, o);
    case InitializeAccount2(k) => KeyRoundTrip(k);
    case InitializeAccount3(k) => KeyRoundTrip(k);
    case InitializePermanentDelegate(k) => KeyRoundTrip(k);
    case InitializeMintCloseAuthority(o) => KeyOptionRoundTrip(o);
  }

  lemma OtherBody(i: TokenInstruction)
    requires i.InitializeMultisig? || i.InitializeMultisig2? || i.GetAccountDataSize? || i.Reallocate?
             || i.UiAmountToAmount?
    ensures UnpackBody(Tag(i), Payload(i)) == Ok(i)
  {
    hide UnpackTypes, PackTypes;
    match i
    case InitializeMultisig(m) =>
    case InitializeMultisig2(m) =>
    case GetAccountDataSize(ts) => TypesRoundTrip(ts);
    case Reallocate(ts) => TypesRoundTrip(ts);
    case UiAmountToAmount(s) =>
  }

  lemma BodyRoundTrip(i: TokenInstruction)
    ensures UnpackBody(Tag(i), Payload(i)) == Ok(i)
  {
    if i.Simple? {
      PlainRoundTrip(i.kind);
    } else {
      hide UnpackBody, Tag, Payload;
      if IsAmount(i) {
        AmountBody(i);
      } else if i.InitializeMultisig? || i.InitializeMultisig2? || i.GetAccountDataSize? || i.Reallocate?
                || i.UiAmountToAmount? {
        OtherBody(i);
      } else {
        KeyBody(i);
      }
    }
  }

  lemma BodyPrefix(tag: u8, b: seq<byte>)
    requires UnpackBody(tag, b).Ok?
    ensures var i := UnpackBody(tag, b).value; Tag(i) == tag && Payload(i) <= b
  {
    hide UnpackInitializeMint, UnpackSetAuthority, UnpackKeyOption, UnpackTypes,
         PackKeyOption, PackTypes, Le64, FromLe64, AuthorityCode, AuthorityFrom;
    PlainTags(SyncNative, tag);
    if PlainFrom(tag).Some? {
    } else if tag == 0 || tag == 20 {
      InitializeMintPrefix(b);
    } else if tag == 2 || tag == 19 {
      assert b[..1] == [b[0]];
    } else if tag == 3 || tag == 4 || tag == 7 || tag == 8 || tag == 23 || 12 <= tag <= 15 {
      AmountPrefix(b);
    } else if tag == 6 {
      SetAuthorityPrefix(b);
    } else if tag == 21 || tag == 29 {
      TypesExact(b);
    } else if tag == 25 {
      KeyOptionPrefix(b);
    }
  }

  /** Unpacking inverts packing, for every instruction and every list of extension types. */
  lemma UnpackPack(i: TokenInstruction)
    ensures Unpack(Pack(i)) == Ok(i)
  {
    BodyRoundTrip(i);
    assert Pack(i)[1..] == Payload(i);
  }

  /** Whatever is accepted starts with the canonical encoding of what it was read as. */
  lemma PackUnpack(b: seq<byte>)
    requires Unpack(b).Ok?
    ensures Pack(Unpack(b).value) <= b
  {
    BodyPrefix(b[0], b[1..]);
    assert b == [b[0]] + b[1..];
  }

  // ------------------------------------------------------------------ the zero-copy decoder

  /** `decode_instruction_data::<T>`: the data must be exactly as long as `T`. */
  function PodData(b: seq<byte>, len: nat): (r: Result<seq<byte>>)
    requires b != []
    ensures r.Ok? ==> |r.value| == len && r.value == b[1..]
  {
    if |b| != len + 1 then Err(InvalidInstructionData) else Ok(b[1..])
  }

  function PodKeyOption(b: seq<byte>): Result<Option<Key>> {
    if b != [] && b[0] == 0 then Ok(None)
    else if b != [] && b[0] == 1 then
      if |b| < 33 then Err(InvalidInstructionData) else Ok(Some(b[1..33]))
    else Err(InvalidInstructionData)
  }

  /** `decode_instruction_data_with_coption_pubkey::<T>` */
  function PodDataWithKeyOption(b: seq<byte>, len: nat): (r: Result<(seq<byte>, Option<Key>)>)
    requires b != []
    ensures r.Ok? ==> |r.value.0| == len
  {
    if |b| < len + 1 then Err(InvalidInstructionData)
    else
      var o :- PodKeyOption(b[len + 1..]);
      Ok((b[1..len + 1], o))
  }

  /** The decoding done by `Processor::process`, instruction by instruction. */
  function PodDecode(b: seq<byte>): Result<TokenInstruction> {
    if b == [] then Err(InvalidInstructionData)
    else
      var tag := b[0];
      if tag > 41 then Err(InvalidInstruction)
      else if tag == 0 || tag == 20 then
        var (d, o) :- PodDataWithKeyOption(b, 33);
        Ok(if tag == 0 then InitializeMint(d[0], d[1..], o) else InitializeMint2(d[0], d[1..], o))
      else if tag == 2 || tag == 19 then
        var d :- PodData(b, 1);
        Ok(if tag == 2 then InitializeMultisig(d[0]) else InitializeMultisig2(d[0]))
      else if tag == 3 || tag == 4 || tag == 7 || tag == 8 || tag == 23 then
        var d :- PodData(b, 8);
        var a := FromLe64(d);
        Ok(if tag == 3 then Transfer(a) else if tag == 4 then Approve(a) else if tag == 7 then MintTo(a)
           else if tag == 8 then Burn(a) else AmountToUiAmount(a))
      else if tag == 6 then
        var (d, o) :- PodDataWithKeyOption(b, 1);
        var t :- AuthorityFrom(d[0]);
        Ok(SetAuthority(t, o))
      else if 12 <= tag <= 15 then
        var data :- PodData(b, 9);
        var a, d := FromLe64(data[..8]), data[8];
        Ok(if tag == 12 then TransferChecked(a, d) else if tag == 13 then ApproveChecked(a, d)
           else if tag == 14 then MintToChecked(a, d) else BurnChecked(a, d))
      else if tag == 16 || tag == 18 || tag == 35 then
        var k :- PodData(b, 32);
        Ok(if tag == 16 then InitializeAccount2(k) else if tag == 18 then InitializeAccount3(k)
           else InitializePermanentDelegate(k))
      else if tag == 21 || tag == 29 then
        var ts :- UnpackTypes(b[1..]);
        Ok(if tag == 21 then GetAccountDataSize(ts) else Reallocate(ts))
      else if tag == 24 then if ValidUtf8(b[1..]) then Ok(UiAmountToAmount(b[1..])) else Err(InvalidInstruction)
      else if tag == 25 then
        var (_, o) :- PodDataWithKeyOption(b, 0);
        Ok(InitializeMintCloseAuthority(o))
      else
        assert PlainFrom(tag).Some?;
        Ok(Simple(PlainFrom(tag).value))
  }

  /** Length of the data where the zero-copy decoder insists on it. */
  function ExactLength(tag: u8): Option<nat> {
    if tag == 2 || tag == 19 then Some(1)
    else if tag == 3 || tag == 4 || tag == 7 || tag == 8 || tag == 23 then Some(8)
    else if 12 <= tag <= 15 then Some(9)
    else if tag == 16 || tag == 18 || tag == 35 then Some(32)
    else None
  }

  lemma KeyOptionsAgree(b: seq<byte>)
    ensures PodKeyOption(b).Ok? <==> UnpackKeyOption(b).Ok?
    ensures PodKeyOption(b).Ok? ==> PodKeyOption(b) == UnpackKeyOption(b)
  {
    if b != [] && b[0] == 1 && |b| >= 33 {
      assert b[1..33] == b[1..][..32];
    }
  }

  /**
   The two decoders: the zero-copy one accepts exactly what `unpack` accepts, less the inputs with trailing bytes
   where it wants an exact length; and whatever it accepts, both read the same way.
   */
  lemma DecodersAgree(b: seq<byte>)
    ensures PodDecode(b).Ok? <==>
              Unpack(b).Ok? && (ExactLength(b[0]).Some? ==> |b| == ExactLength(b[0]).value + 1)
    ensures PodDecode(b).Ok? ==> Unpack(b) == PodDecode(b)
  {
    hide UnpackTypes, FromLe64, AuthorityFrom, UnpackKeyOption, PodKeyOption, ValidUtf8;
    if b != [] {
      var tag, rest := b[0], b[1..];
      if tag == 0 || tag == 20 {
        if |b| >= 34 {
          assert b[1..34][1..] == rest[1..][..32] && b[34..] == rest[1..][32..];
          KeyOptionsAgree(b[34..]);
        }
      } else if tag == 6 {
        if |b| >= 2 {
          assert b[2..] == rest[1..];
          KeyOptionsAgree(b[2..]);
        }
      } else if tag == 25 {
        KeyOptionsAgree(rest);
      } else if tag == 3 || tag == 4 || tag == 7 || tag == 8 || tag == 23 || tag == 16 || tag == 18 || tag == 35 {
        assert rest[..|rest|] == rest;
      }
    }
  }
}
