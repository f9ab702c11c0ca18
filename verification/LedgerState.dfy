/**
 The accounts the token program works on. Extension areas are kept as the list of types they hold, with the
 values the ledger uses; `Tlv` and `TlvOps` justify reading the bytes that way.
 */
module LedgerState {
  import opened Bytes
  import opened Common
  import opened ExtensionTypes
  import opened TransferFees

  /** A 32-byte key, of which the ledger only ever asks whether two are equal. */
  type Pubkey = nat

  const SYSTEM_PROGRAM: Pubkey := 0
  const INCINERATOR: Pubkey := 1
  const TOKEN_PROGRAM: Pubkey := 2
  const NATIVE_MINT: Pubkey := 3
  const NATIVE_DECIMALS: u8 := 9
  const MAX_SIGNERS: nat := 11

  datatype FeeConfig = FeeConfig(configAuthority: Option<Pubkey>, withdrawAuthority: Option<Pubkey>, withheld: u64,
                                 older: TransferFee, newer: TransferFee)

  const NO_FEE: TransferFee := TransferFee(0, 0, 0)
  const NO_FEE_CONFIG: FeeConfig := FeeConfig(None, None, 0, NO_FEE, NO_FEE)

  /** Values of the mint extensions; a value means something only while its type is listed. */
  datatype MintExt = MintExt(closeAuthority: Option<Pubkey>, permanentDelegate: Option<Pubkey>, defaultFrozen: bool,
                             fee: FeeConfig, hookProgram: Option<Pubkey>,
                             authorities: map<ExtensionType, Option<Pubkey>>)

  const NO_MINT_EXT: MintExt := MintExt(None, None, false, NO_FEE_CONFIG, None, map[])

  datatype Mint = Mint(authority: Option<Pubkey>, supply: u64, decimals: u8, freezeAuthority: Option<Pubkey>,
                       types: seq<ExtensionType>, ext: MintExt)

  datatype Token = Token(mint: Pubkey, owner: Pubkey, amount: u64, delegate: Option<Pubkey>, frozen: bool,
                         native: Option<u64>, delegatedAmount: u64, closeAuthority: Option<Pubkey>,
                         types: seq<ExtensionType>, withheld: u64, lockCpi: bool, memoRequired: bool)
  {
    predicate OwnedBySystemOrIncinerator() {
      owner == SYSTEM_PROGRAM || owner == INCINERATOR
    }

    /** The guard is on, and the instruction runs inside another program. */
    predicate GuardBlocks(inCpi: bool) {
      CPI_GUARD in types && lockCpi && inCpi
    }

    function Withheld(): u64 {
      if TRANSFER_FEE_AMOUNT in types then withheld else 0
    }
  }

  datatype Multisig = Multisig(m: u8, n: u8, signers: seq<Pubkey>)

  /**
   What the data of an account holds. `Blank` has a zeroed base state, and the extensions initialised so far;
   `Other` is data that no state of this program unpacks from.
   */
  datatype Data =
    | Blank(types: seq<ExtensionType>, ext: MintExt)
    | MintData(mint: Mint)
    | TokenData(token: Token)
    | MultisigData(multisig: Multisig)
    | Other

  const ZEROED: Data := Blank([], NO_MINT_EXT)

  /** One account: the program owning it, its lamports, its data length and its data. */
  datatype Info = Info(owner: Pubkey, lamports: u64, dataLen: nat, data: Data)

  const ABSENT: Info := Info(SYSTEM_PROGRAM, 0, 0, ZEROED)

  type State = map<Pubkey, Info>

  function Get(s: State, k: Pubkey): Info {
    if k in s then s[k] else ABSENT
  }

  /** The instruction's surroundings: rent by data length, the epoch, the call depth, and what other programs answer. */
  datatype Ctx = Ctx(rent: nat -> nat, epoch: u64, inCpi: bool, memoBefore: bool, hookSucceeds: bool)

  /** An account named as an authority or signer. */
  datatype Signer = Signer(key: Pubkey, isSigner: bool)

  predicate IsToken(s: State, k: Pubkey) {
    Get(s, k).owner == TOKEN_PROGRAM && Get(s, k).data.TokenData?
  }

  predicate IsMint(s: State, k: Pubkey) {
    Get(s, k).owner == TOKEN_PROGRAM && Get(s, k).data.MintData?
  }

  function TokenAt(s: State, k: Pubkey): Token
    requires IsToken(s, k)
  {
    Get(s, k).data.token
  }

  function MintAt(s: State, k: Pubkey): Mint
    requires IsMint(s, k)
  {
    Get(s, k).data.mint
  }

  // ------------------------------------------------------------------ unpacking

  /** Without an initialised base state: the length decides between the two errors. */
  function NotInitialized<T>(i: Info, base: Base): Result<T> {
    if i.dataLen >= base.Size() && i.dataLen != MULTISIG_LEN then Err(UninitializedAccount) else Err(InvalidAccountData)
  }

  /** The zero padding of a mint reads as an account that is not initialised. */
  function UnpackToken(i: Info): Result<Token> {
    match i.data
    case TokenData(t) => Ok(t)
    case Blank(_, _) => NotInitialized(i, AccountBase)
    case MintData(_) => NotInitialized(i, AccountBase)
    case _ => Err(InvalidAccountData)
  }

  function UnpackMint(i: Info): Result<Mint> {
    match i.data
    case MintData(m) => Ok(m)
    case Blank(_, _) => NotInitialized(i, MintBase)
    case _ => Err(InvalidAccountData)
  }

  /** `unpack_uninitialized`: the extension types already initialised. */
  function UnpackUninitialized(i: Info, base: Base): Result<seq<ExtensionType>> {
    if i.dataLen < base.Size() || i.dataLen == MULTISIG_LEN then Err(InvalidAccountData)
    else match i.data
      case Blank(types, _) =>
        if i.dataLen != base.Size() && i.dataLen <= BASE_ACCOUNT_AND_TYPE_LENGTH then Err(InvalidAccountData)
        else if types != [] && AccountTypeOf(types[0]) != base.Type() then Err(ExtensionBaseMismatch)
        else Ok(types)
      case MintData(_) => if base.MintBase? then Err(AlreadyInUse) else Err(InvalidAccountData)
      case TokenData(_) => if base.AccountBase? then Err(AlreadyInUse) else Err(InvalidAccountData)
      case _ => Err(InvalidAccountData)
  }

  /** The listed extensions fit into an account's data. */
  predicate Room(types: seq<ExtensionType>, dataLen: nat) {
    types == [] || BASE_ACCOUNT_AND_TYPE_LENGTH + SumTlvLen(types) <= dataLen
  }

  /** `init_extension` with overwriting: the types held afterwards, if a new one has room. */
  function InitExtension(dataLen: nat, types: seq<ExtensionType>, t: ExtensionType): (r: Result<seq<ExtensionType>>)
    ensures r.Ok? ==> t in r.value && types <= r.value && r.value[0] == if types == [] then t else types[0]
    ensures r.Ok? ==> forall u :: u in r.value ==> u in types || u == t
    ensures r.Ok? && Room(types, dataLen) ==> Room(r.value, dataLen)
  {
    if t in types then Ok(types)
    else if BASE_ACCOUNT_AND_TYPE_LENGTH + SumTlvLen(types) + AddTypeAndLength(TypeLen(t)) <= dataLen then
      assert forall u :: u in types ==> u in types + [t];
      assert (types + [t])[..|types|] == types;
      Ok(types + [t])
    else Err(InvalidAccountData)
  }

  /** `init_account_extension_from_type` for each required type in turn. */
  function InitExtensions(dataLen: nat, types: seq<ExtensionType>,
                          ts: seq<ExtensionType>): (r: Result<seq<ExtensionType>>)
    ensures r.Ok? ==> types <= r.value && forall t :: t in ts ==> t in r.value
    ensures r.Ok? ==> forall u :: u in r.value ==> u in types || u in ts
    ensures r.Ok? && Room(types, dataLen) ==> Room(r.value, dataLen)
  {
    if ts == [] then Ok(types)
    else
      var n := |ts| - 1;
      assert ts == ts[..n] + [ts[n]];
      var before :- InitExtensions(dataLen, types, ts[..n]);
      InitExtension(dataLen, before, ts[n])
  }

  /** An optional key stored as a key that must not be zero. */
  function NonZero(o: Option<Pubkey>): Result<Option<Pubkey>> {
    if o == Some(0) then Err(InvalidArgument) else Ok(o)
  }

  function PermanentDelegateOf(m: Mint): Option<Pubkey> {
    if PERMANENT_DELEGATE in m.types then m.ext.permanentDelegate else None
  }

  function HookProgramOf(m: Mint): Option<Pubkey> {
    if TRANSFER_HOOK in m.types then m.ext.hookProgram else None
  }

  /** `calculate_epoch_fee`, or no fee without the extension. */
  function FeeOf(m: Mint, epoch: u64, amount: u64): Result<u64> {
    if TRANSFER_FEE_CONFIG !in m.types then Ok(0)
    else match CalculateFee(EpochFee(m.ext.fee.older, m.ext.fee.newer, epoch), amount)
      case Some(fee) => Ok(fee)
      case None => Err(Overflow)
  }
}
