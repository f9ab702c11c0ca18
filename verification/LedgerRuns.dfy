/**
 Runs of the ledger: instructions that commit only when they succeed and the runtime accepts their changes, mixed
 with whatever other programs may do in between.
 */
module LedgerRuns {
  import opened Bytes
  import opened Common
  import opened ExtensionTypes
  import opened TransferFees
  import opened LedgerState
  import opened LedgerSums
  import L = Ledger

  type AuthorityType = L.AuthorityType
  type Checked = L.Checked

  datatype Instr =
    | InitializeMint(mint: Pubkey, decimals: u8, mintAuthority: Pubkey, freezeAuthority: Option<Pubkey>)
    | InitializeMintCloseAuthority(mint: Pubkey, closeAuthority: Option<Pubkey>)
    | InitializeNonTransferableMint(mint: Pubkey)
    | InitializePermanentDelegate(mint: Pubkey, permanentDelegate: Pubkey)
    | InitializeDefaultAccountState(mint: Pubkey, frozen: bool)
    | InitializeTransferFeeConfig(mint: Pubkey, configAuthority: Option<Pubkey>, withdrawAuthority: Option<Pubkey>,
                                  basisPoints: u16, maximumFee: u64)
    | InitializeAuthorityExtension(mint: Pubkey, ty: ExtensionType, extensionAuthority: Option<Pubkey>,
                                   target: Option<Pubkey>)
    | InitializeImmutableOwner(account: Pubkey)
    | InitializeAccount(account: Pubkey, mint: Pubkey, owner: Pubkey)
    | InitializeMultisig(account: Pubkey, m: u8, keys: seq<Pubkey>)
    | Transfer(account: Pubkey, checked: Option<Checked>, dest: Pubkey, authority: Signer, signers: seq<Signer>,
               amount: u64, expectedFee: Option<u64>)
    | Approve(account: Pubkey, checked: Option<Checked>, delegate: Pubkey, authority: Signer, signers: seq<Signer>,
              amount: u64)
    | Revoke(account: Pubkey, authority: Signer, signers: seq<Signer>)
    | SetAuthority(account: Pubkey, kind: AuthorityType, newAuthority: Option<Pubkey>, authority: Signer,
                   signers: seq<Signer>)
    | MintTo(mint: Pubkey, dest: Pubkey, expectedDecimals: Option<u8>, authority: Signer, signers: seq<Signer>,
             amount: u64)
    | Burn(account: Pubkey, mint: Pubkey, expectedDecimals: Option<u8>, authority: Signer, signers: seq<Signer>,
           amount: u64)
    | CloseAccount(account: Pubkey, dest: Pubkey, authority: Signer, signers: seq<Signer>)
    | ToggleFreeze(account: Pubkey, mint: Pubkey, authority: Signer, signers: seq<Signer>, freeze: bool)
    | UpdateDefaultAccountState(mint: Pubkey, frozen: bool, authority: Signer, signers: seq<Signer>)
    | SyncNative(account: Pubkey)
    | WithdrawExcessLamports(account: Pubkey, dest: Pubkey, authority: Signer, signers: seq<Signer>)
    | Reallocate(account: Pubkey, payer: Signer, authority: Signer, signers: seq<Signer>, newTypes: seq<ExtensionType>)
    | CreateNativeMint(payer: Signer)
    | ToggleCpiGuard(account: Pubkey, authority: Signer, signers: seq<Signer>, enable: bool)
    | ToggleMemo(account: Pubkey, authority: Signer, signers: seq<Signer>, enable: bool)
    | SetTransferFee(mint: Pubkey, authority: Signer, signers: seq<Signer>, basisPoints: u16, maximumFee: u64)
    | WithdrawWithheldFromMint(mint: Pubkey, dest: Pubkey, authority: Signer, signers: seq<Signer>)
    | HarvestWithheldToMint(mint: Pubkey, sources: seq<Pubkey>)
    | WithdrawWithheldFromAccounts(mint: Pubkey, dest: Pubkey, authority: Signer, signers: seq<Signer>,
                                   sources: seq<Pubkey>)

  /** `Processor::process`, behind the decoding of the instruction. */
  function Process(s: State, ctx: Ctx, i: Instr): Result<State> {
    match i
    case InitializeMint(k, d, a, f) => L.InitializeMint(s, ctx, k, d, a, f)
    case InitializeMintCloseAuthority(k, a) => L.InitializeMintCloseAuthority(s, k, a)
    case InitializeNonTransferableMint(k) => L.InitializeNonTransferableMint(s, k)
    case InitializePermanentDelegate(k, d) => L.InitializePermanentDelegate(s, k, d)
    case InitializeDefaultAccountState(k, f) => L.InitializeDefaultAccountState(s, k, f)
    case InitializeTransferFeeConfig(k, c, w, b, x) => L.InitializeTransferFeeConfig(s, ctx, k, c, w, b, x)
    case InitializeAuthorityExtension(k, t, a, x) => L.InitializeAuthorityExtension(s, k, t, a, x)
    case InitializeImmutableOwner(k) => L.InitializeImmutableOwner(s, k)
    case InitializeAccount(k, m, o) => L.InitializeAccount(s, ctx, k, m, o)
    case InitializeMultisig(k, m, keys) => L.InitializeMultisig(s, ctx, k, m, keys)
    case Transfer(k, c, d, a, ss, n, f) => L.Transfer(s, ctx, k, c, d, a, ss, n, f)
    case Approve(k, c, d, a, ss, n) => L.Approve(s, ctx, k, c, d, a, ss, n)
    case Revoke(k, a, ss) => L.Revoke(s, k, a, ss)
    case SetAuthority(k, t, o, a, ss) => L.SetAuthority(s, ctx, k, t, o, a, ss)
    case MintTo(m, d, x, a, ss, n) => L.MintTo(s, m, d, x, a, ss, n)
    case Burn(k, m, x, a, ss, n) => L.Burn(s, ctx, k, m, x, a, ss, n)
    case CloseAccount(k, d, a, ss) => L.CloseAccount(s, ctx, k, d, a, ss)
    case ToggleFreeze(k, m, a, ss, f) => L.ToggleFreeze(s, k, m, a, ss, f)
    case UpdateDefaultAccountState(k, f, a, ss) => L.UpdateDefaultAccountState(s, k, f, a, ss)
    case SyncNative(k) => L.SyncNative(s, k)
    case WithdrawExcessLamports(k, d, a, ss) => L.WithdrawExcessLamports(s, ctx, k, d, a, ss)
    case Reallocate(k, p, a, ss, ts) => L.Reallocate(s, ctx, k, p, a, ss, ts)
    case CreateNativeMint(p) => L.CreateNativeMint(s, ctx, p)
    case ToggleCpiGuard(k, a, ss, e) => L.ToggleCpiGuard(s, ctx, k, a, ss, e)
    case ToggleMemo(k, a, ss, e) => L.ToggleMemo(s, k, a, ss, e)
    case SetTransferFee(k, a, ss, b, x) => L.SetTransferFee(s, ctx, k, a, ss, b, x)
    case WithdrawWithheldFromMint(m, d, a, ss) => L.WithdrawWithheldFromMint(s, m, d, a, ss)
    case HarvestWithheldToMint(m, ks) => L.HarvestWithheldToMint(s, m, ks)
    case WithdrawWithheldFromAccounts(m, d, a, ss, ks) => L.WithdrawWithheldFromAccounts(s, m, d, a, ss, ks)
  }

  /** Accounts the system program changes on behalf of an instruction. */
  function SystemChanges(i: Instr): set<Pubkey> {
    match i
    case Reallocate(_, p, _, _, _) => {p.key}
    case CreateNativeMint(p) => {p.key, NATIVE_MINT}
    case _ => {}
  }

  /** At most lamports were added. */
  predicate OnlyDeposited(before: Info, after: Info) {
    after == before.(lamports := after.lamports) && after.lamports >= before.lamports
  }

  /** The runtime's rule: the program changes and debits only accounts it owns. */
  predicate RuntimeAccepts(s: State, s': State, i: Instr) {
    forall k :: k in s' && k !in SystemChanges(i) && Get(s, k).owner != TOKEN_PROGRAM ==>
        OnlyDeposited(Get(s, k), Get(s', k))
  }

  predicate Commits(s: State, ctx: Ctx, i: Instr) {
    var r := Process(s, ctx, i);
    r.Ok? && RuntimeAccepts(s, r.value, i)
  }

  /** One call or one action from outside. */
  datatype Step = Call(ctx: Ctx, instr: Instr) | Outside(key: Pubkey, info: Info)

  /**
   What other programs can do to an account: add lamports; and, to an account this program does not own, anything at
   all, except that an account handed over to this program has zeroed data. The native mint is a derived address: no
   one signs for it, so nobody outside can do more than deposit.
   */
  predicate OutsideAllowed(before: Info, k: Pubkey, after: Info) {
    || OnlyDeposited(before, after)
    || (before.owner != TOKEN_PROGRAM && k != NATIVE_MINT && (after.owner == TOKEN_PROGRAM ==> after.data == ZEROED))
  }

  function Next(s: State, e: Step): State {
    match e
    case Call(ctx, i) => if Commits(s, ctx, i) then Process(s, ctx, i).value else s
    case Outside(k, i) => if OutsideAllowed(Get(s, k), k, i) then s[k := i] else s
  }

  function Run(s: State, es: seq<Step>): State {
    if es == [] then s else Next(Run(s, es[..|es| - 1]), es[|es| - 1])
  }

  /** Before the first instruction the program owns no account, and nobody could have touched the native mint. */
  predicate Genesis(s: State) {
    (forall k :: k in s ==> s[k].owner != TOKEN_PROGRAM) && OnlyDeposited(ABSENT, Get(s, NATIVE_MINT))
  }

  // ------------------------------------------------------------------ what every account keeps

  ghost predicate GoodFee(f: FeeConfig) {
    f.older.basisPoints <= ONE_IN_BASIS_POINTS && f.newer.basisPoints <= ONE_IN_BASIS_POINTS
  }

  ghost predicate GoodToken(t: Token, lamports: u64) {
    && (t.native.Some? <==> t.mint == NATIVE_MINT)
    && (t.delegate.None? ==> t.delegatedAmount == 0)
    && (t.native.Some? ==> lamports >= t.native.value + t.amount && !t.frozen)
  }

  ghost predicate GoodMint(k: Pubkey, m: Mint) {
    && GoodFee(m.ext.fee)
    && (k == NATIVE_MINT ==> m.types == [] && m.authority.None? && m.freezeAuthority.None?)
  }

  /** Only data of a multisig's length can be a multisig, and an initialised one has its thresholds in range. */
  ghost predicate GoodMultisig(x: Multisig) {
    1 <= x.m <= MAX_SIGNERS && 1 <= x.n <= MAX_SIGNERS && |x.signers| == MAX_SIGNERS
  }

  ghost predicate FitsToken(types: seq<ExtensionType>, dataLen: nat) {
    dataLen >= ACCOUNT_LEN && dataLen != MULTISIG_LEN && Room(types, dataLen)
  }

  /** A mint has exactly the length calculated for its extensions, and they may be combined. */
  ghost predicate FitsMint(types: seq<ExtensionType>, dataLen: nat) {
    TryCalculateAccountLen(MintBase, types) == Ok(dataLen) && ValidMintCombination(types)
  }

  ghost predicate FitsBlank(types: seq<ExtensionType>, dataLen: nat) {
    Room(types, dataLen) && (dataLen == MULTISIG_LEN ==> types == [])
  }

  ghost predicate GoodInfo(k: Pubkey, i: Info) {
    if i.owner == TOKEN_PROGRAM then
      match i.data
      case TokenData(t) => GoodToken(t, i.lamports) && k != NATIVE_MINT && FitsToken(t.types, i.dataLen)
      case MintData(m) => GoodMint(k, m) && FitsMint(m.types, i.dataLen)
      case Blank(types, ext) =>
        GoodFee(ext.fee) && ext.fee.withheld == 0 && k != NATIVE_MINT && FitsBlank(types, i.dataLen)
      case MultisigData(x) => GoodMultisig(x) && k != NATIVE_MINT && i.dataLen == MULTISIG_LEN
      case Other => false
    else
      k == NATIVE_MINT ==> OnlyDeposited(ABSENT, i)
  }

  ghost predicate Good(s: State) {
    forall k :: GoodInfo(k, Get(s, k))
  }

  lemma GoodUpdate(s: State, k: Pubkey, i: Info)
    requires Good(s) && GoodInfo(k, i)
    ensures Good(s[k := i])
  {
    var s' := s[k := i];
    forall j
      ensures GoodInfo(j, Get(s', j))
    {
      assert GoodInfo(j, Get(s, j));
    }
  }

  /** The ledger's invariant: every account is good, and every mint but the native one is balanced. */
  ghost predicate Inv(s: State) {
    Good(s) && forall m :: m != NATIVE_MINT ==> Balanced(s, m)
  }
}
