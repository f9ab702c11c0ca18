/**
 What each instruction does to the accounts (`Processor::process_*` and the extension processors that move or
 gate tokens), as functions from the state before to the state after or the error returned. `Processor` holds those
 that change the accounts in several steps in the form of the source, each proved to compute its function.
 */
module Ledger {
  import opened Bytes
  import opened Common
  import opened ExtensionTypes
  import opened TransferFees
  import opened LedgerState
  import opened Multisigs
  import Instructions

  type AuthorityType = Instructions.AuthorityType

  /** A mint account named by a checked instruction, with the decimals the caller expects. */
  datatype Checked = Checked(mint: Pubkey, decimals: u8)

  function CheckProgram(owner: Pubkey): Outcome {
    Need(owner == TOKEN_PROGRAM, IncorrectProgramId)
  }

  function WithToken(i: Info, t: Token): Info {
    i.(data := TokenData(t))
  }

  function WithMint(i: Info, m: Mint): Info {
    i.(data := MintData(m))
  }

  // ------------------------------------------------------------------ initialisation

  function RequiredRent(ctx: Ctx, i: Info): Outcome {
    Need(i.lamports >= ctx.rent(i.dataLen), NotRentExempt)
  }

  function InitializeMint(s: State, ctx: Ctx, k: Pubkey, decimals: u8, authority: Pubkey,
                          freeze: Option<Pubkey>): Result<State>
  {
    var i := Get(s, k);
    :- RequiredRent(ctx, i);
    var types :- UnpackUninitialized(i, MintBase);
    var len :- TryCalculateAccountLen(MintBase, types);
    :- Need(len == i.dataLen, InvalidAccountData);
    :- Need(ValidMintCombination(types), InvalidExtensionCombination);
    :- Need(!(DEFAULT_ACCOUNT_STATE in types && i.data.ext.defaultFrozen && freeze.None?), MintCannotFreeze);
    Ok(s[k := WithMint(i, Mint.Mint(Some(authority), 0, decimals, freeze, types, i.data.ext))])
  }

  /** Stores one extension of an uninitialised mint. */
  function InitMintExtension(s: State, k: Pubkey, t: ExtensionType, ext: MintExt): Result<State> {
    var i := Get(s, k);
    var types :- UnpackUninitialized(i, MintBase);
    var types' :- InitExtension(i.dataLen, types, t);
    Ok(s[k := i.(data := Blank(types', ext))])
  }

  function BlankExt(s: State, k: Pubkey): MintExt {
    var d := Get(s, k).data;
    if d.Blank? then d.ext else NO_MINT_EXT
  }

  function InitializeMintCloseAuthority(s: State, k: Pubkey, authority: Option<Pubkey>): Result<State> {
    var s' :- InitMintExtension(s, k, MINT_CLOSE_AUTHORITY, BlankExt(s, k).(closeAuthority := authority));
    var _ :- NonZero(authority);
    Ok(s')
  }

  function InitializeNonTransferableMint(s: State, k: Pubkey): Result<State> {
    InitMintExtension(s, k, NON_TRANSFERABLE, BlankExt(s, k))
  }

  function InitializePermanentDelegate(s: State, k: Pubkey, delegate: Pubkey): Result<State> {
    var s' :- InitMintExtension(s, k, PERMANENT_DELEGATE, BlankExt(s, k).(permanentDelegate := Some(delegate)));
    var _ :- NonZero(Some(delegate));
    Ok(s')
  }

  function InitializeDefaultAccountState(s: State, k: Pubkey, frozen: bool): Result<State> {
    InitMintExtension(s, k, DEFAULT_ACCOUNT_STATE, BlankExt(s, k).(defaultFrozen := frozen))
  }

  function InitializeTransferFeeConfig(s: State, ctx: Ctx, k: Pubkey, configAuthority: Option<Pubkey>,
                                       withdrawAuthority: Option<Pubkey>, basisPoints: u16,
                                           maximumFee: u64): Result<State>
  {
    var fee := TransferFee(ctx.epoch, maximumFee, basisPoints);
    var config := FeeConfig(configAuthority, withdrawAuthority, 0, fee, fee);
    var s' :- InitMintExtension(s, k, TRANSFER_FEE_CONFIG, BlankExt(s, k).(fee := config));
    var _ :- NonZero(configAuthority);
    var _ :- NonZero(withdrawAuthority);
    :- Need(basisPoints <= ONE_IN_BASIS_POINTS, TransferFeeExceedsMaximum);
    Ok(s')
  }

  /** Extensions whose only value the ledger needs is an authority (and, for a transfer hook, a program). */
  predicate HasPlainAuthority(t: ExtensionType) {
    t in {INTEREST_BEARING_CONFIG, TRANSFER_HOOK, METADATA_POINTER, GROUP_POINTER, GROUP_MEMBER_POINTER}
  }

  function InitializeAuthorityExtension(s: State, k: Pubkey, t: ExtensionType, authority: Option<Pubkey>,
                                        target: Option<Pubkey>): Result<State>
  {
    var ext := BlankExt(s, k);
    :- Need(HasPlainAuthority(t), InvalidInstruction);
    var ext' := ext.(authorities := ext.authorities[t := authority],
                     hookProgram := if t == TRANSFER_HOOK then target else ext.hookProgram);
    var s' :- InitMintExtension(s, k, t, ext');
    :- Need(!(t == TRANSFER_HOOK && target == Some(TOKEN_PROGRAM)), IncorrectProgramId);
    :- Need(t == INTEREST_BEARING_CONFIG || authority.Some? || target.Some?, InvalidInstruction);
    Ok(s')
  }

  function InitializeImmutableOwner(s: State, k: Pubkey): Result<State> {
    var i := Get(s, k);
    var types :- UnpackUninitialized(i, AccountBase);
    var types' :- InitExtension(i.dataLen, types, IMMUTABLE_OWNER);
    Ok(s[k := i.(data := Blank(types', BlankExt(s, k)))])
  }

  function InitializeAccount(s: State, ctx: Ctx, k: Pubkey, mintKey: Pubkey, owner: Pubkey): Result<State> {
    var i := Get(s, k);
    var types :- UnpackUninitialized(i, AccountBase);
    :- RequiredRent(ctx, i);
    var mi := Get(s, mintKey);
    :- Need(mi.data.MintData?, InvalidMint);
    var m := mi.data.mint;
    :- CheckProgram(mi.owner);
    var required := RequiredInitAccountExtensions(m.types);
    var len :- TryCalculateAccountLen(AccountBase, required);
    :- Need(len <= i.dataLen, InvalidAccountData);
    var types' :- InitExtensions(i.dataLen, types, required);
    var frozen := DEFAULT_ACCOUNT_STATE in m.types && m.ext.defaultFrozen;
    var reserve := ctx.rent(i.dataLen);
    var t := if mintKey == NATIVE_MINT
      then Token(mintKey, owner, i.lamports - reserve, None, frozen, Some(reserve), 0, None, types', 0, false, false)
      else Token(mintKey, owner, 0, None, frozen, None, 0, None, types', 0, false, false);
    Ok(s[k := WithToken(i, t)])
  }

  /** The unused positions of a multisig. */
  function NoKeys(n: nat): seq<Pubkey> {
    seq(n, _ => 0)
  }

  function InitializeMultisig(s: State, ctx: Ctx, k: Pubkey, m: u8, signers: seq<Pubkey>): Result<State> {
    var i := Get(s, k);
    :- Need(i.dataLen == MULTISIG_LEN && (i.data == ZEROED || i.data.MultisigData?), InvalidArgument);
    :- Need(i.data == ZEROED, AlreadyInUse);
    :- RequiredRent(ctx, i);
    var n := |signers| % 256;
    :- Need(1 <= n <= MAX_SIGNERS, InvalidNumberOfProvidedSigners);
    :- Need(1 <= m <= MAX_SIGNERS, InvalidNumberOfRequiredSigners);
    // storing a signer past the end of the array is a panic
    :- Need(|signers| <= MAX_SIGNERS, Panic);
    Ok(s[k := i.(data := MultisigData(Multisig(m, n, signers + NoKeys(MAX_SIGNERS - |signers|))))])
  }

  // ------------------------------------------------------------------ transfer

  /** Fee, permanent delegate and hook of a transfer, from the mint when one is given. */
  function TransferTerms(s: State, ctx: Ctx, a: Token, checked: Option<Checked>, amount: u64)
    : Result<(u64, Option<Pubkey>, Option<Pubkey>)>
  {
    match checked
    case Some(c) =>
      :- Need(a.mint == c.mint, MintMismatch);
      var m :- UnpackMint(Get(s, c.mint));
      :- Need(c.decimals == m.decimals, MintDecimalsMismatch);
      var fee :- FeeOf(m, ctx.epoch, amount);
      Ok((fee, PermanentDelegateOf(m), HookProgramOf(m)))
    case None =>
      :- Need(TRANSFER_HOOK_ACCOUNT !in a.types, MintRequiredForTransfer);
      :- Need(TRANSFER_FEE_AMOUNT !in a.types, MintRequiredForTransfer);
      Ok((0, None, None))
  }

  /** The delegate after spending: what is left of the allowance, and no delegate once nothing is. */
  function Spend(a: Token, amount: u64): Token
    requires amount <= a.delegatedAmount
  {
    var left := a.delegatedAmount - amount;
    a.(delegatedAmount := left, delegate := if left == 0 then None else a.delegate)
  }

  /** Who may move tokens out: the permanent delegate, the delegate within its allowance, or the owner. */
  function AuthorizeDebit(s: State, ctx: Ctx, a: Token, permanentDelegate: Option<Pubkey>, authority: Signer,
                          signers: seq<Signer>, amount: u64, charge: bool, blocked: Error): Result<Token>
  {
    if permanentDelegate == Some(authority.key) then
      var _ :- ValidateOwner(s, authority.key, authority, signers);
      Ok(a)
    else if a.delegate == Some(authority.key) then
      var _ :- ValidateOwner(s, authority.key, authority, signers);
      :- Need(a.delegatedAmount >= amount, InsufficientFunds);
      Ok(if charge then Spend(a, amount) else a)
    else
      var _ :- ValidateOwner(s, a.owner, authority, signers);
      :- Need(!a.GuardBlocks(ctx.inCpi), blocked);
      Ok(a)
  }

  /** The destination after a credit with a fee withheld. */
  function Credit(d: Token, amount: u64, fee: u64): Result<Token> {
    var credited := amount - fee;
    :- Need(credited >= 0 && d.amount + credited <= U64_MAX, Overflow);
    var d' := d.(amount := d.amount + credited);
    if fee == 0 then Ok(d')
    else
      :- Need(TRANSFER_FEE_AMOUNT in d.types, InvalidState);
      :- Need(d.withheld + fee <= U64_MAX, Overflow);
      Ok(d'.(withheld := d.withheld + fee))
  }

  function CheckHook(hook: Option<Pubkey>, ctx: Ctx, a: Token, d: Token): Result<()> {
    if hook.None? then Ok(())
    else
      :- Need(TRANSFER_HOOK_ACCOUNT in a.types && TRANSFER_HOOK_ACCOUNT in d.types, ExtensionNotFound);
      :- Need(ctx.hookSucceeds, HookFailed);
      Ok(())
  }

  function Transfer(s: State, ctx: Ctx, source: Pubkey, checked: Option<Checked>, dest: Pubkey, authority: Signer,
                    signers: seq<Signer>, amount: u64, expectedFee: Option<u64>): Result<State>
  {
    var si := Get(s, source);
    var a :- UnpackToken(si);
    :- Need(!a.frozen, AccountFrozen);
    :- Need(a.amount >= amount, InsufficientFunds);
    :- Need(NON_TRANSFERABLE_ACCOUNT !in a.types, NonTransferable);
    var (fee, permanentDelegate, hook) :- TransferTerms(s, ctx, a, checked, amount);
    :- Need(expectedFee.Some? ==> expectedFee.value == fee, FeeMismatch);
    var a' :- AuthorizeDebit(s, ctx, a, permanentDelegate, authority, signers, amount, source != dest,
                             CpiGuardTransferBlocked);
    :- CheckProgram(si.owner);
    :- CheckProgram(Get(s, dest).owner);
    if source == dest then Ok(s)
    else Move(s, ctx, source, a', dest, amount, fee, hook)
  }

  /** The part of a transfer behind all checks on the source. */
  function Move(s: State, ctx: Ctx, source: Pubkey, a: Token, dest: Pubkey, amount: u64, fee: u64,
                hook: Option<Pubkey>): Result<State>
  {
    var si, di := Get(s, source), Get(s, dest);
    var d :- UnpackToken(di);
    :- Need(!d.frozen, AccountFrozen);
    :- Need(a.mint == d.mint, MintMismatch);
    :- Need(MEMO_TRANSFER in d.types && d.memoRequired ==> ctx.memoBefore, NoMemo);
    :- Need(a.amount >= amount, Overflow);
    var d' :- Credit(d, amount, fee);
    var moved := if a.native.Some? then amount else 0;
    :- Need(si.lamports >= moved && di.lamports + moved <= U64_MAX, Overflow);
    var _ :- CheckHook(hook, ctx, a, d);
    Ok(s[source := WithToken(si, a.(amount := a.amount - amount)).(lamports := si.lamports - moved)]
        [dest := WithToken(di, d').(lamports := di.lamports + moved)])
  }

  // ------------------------------------------------------------------ delegation and authorities

  function CheckMint(s: State, a: Token, checked: Option<Checked>): Result<()> {
    match checked
    case None => Ok(())
    case Some(c) =>
      :- Need(a.mint == c.mint, MintMismatch);
      var m :- UnpackMint(Get(s, c.mint));
      :- Need(c.decimals == m.decimals, MintDecimalsMismatch);
      Ok(())
  }

  function Approve(s: State, ctx: Ctx, k: Pubkey, checked: Option<Checked>, delegate: Pubkey, authority: Signer,
                   signers: seq<Signer>, amount: u64): Result<State>
  {
    var i := Get(s, k);
    var a :- UnpackToken(i);
    :- Need(!a.frozen, AccountFrozen);
    var _ :- CheckMint(s, a, checked);
    var _ :- ValidateOwner(s, a.owner, authority, signers);
    :- Need(!a.GuardBlocks(ctx.inCpi), CpiGuardApproveBlocked);
    Ok(s[k := WithToken(i, a.(delegate := Some(delegate), delegatedAmount := amount))])
  }

  function Revoke(s: State, k: Pubkey, authority: Signer, signers: seq<Signer>): Result<State> {
    var i := Get(s, k);
    var a :- UnpackToken(i);
    :- Need(!a.frozen, AccountFrozen);
    var expected := if a.delegate == Some(authority.key) then authority.key else a.owner;
    var _ :- ValidateOwner(s, expected, authority, signers);
    Ok(s[k := WithToken(i, a.(delegate := None, delegatedAmount := 0))])
  }

  function CloseAuthorityOf(a: Token): Pubkey {
    if a.closeAuthority.Some? then a.closeAuthority.value else a.owner
  }

  function SetTokenAuthority(s: State, ctx: Ctx, a: Token, kind: AuthorityType, newAuthority: Option<Pubkey>,
                             authority: Signer, signers: seq<Signer>): Result<Token>
  {
    if a.frozen then Err(AccountFrozen)
    else match kind
    case AccountOwner =>
      var _ :- ValidateOwner(s, a.owner, authority, signers);
      :- Need(IMMUTABLE_OWNER !in a.types, ImmutableOwner);
      :- Need(!a.GuardBlocks(ctx.inCpi), CpiGuardSetAuthorityBlocked);
      :- Need(!(CPI_GUARD in a.types && a.lockCpi), CpiGuardOwnerChangeBlocked);
      :- Need(newAuthority.Some?, InvalidInstruction);
      Ok(a.(owner := newAuthority.value, delegate := None, delegatedAmount := 0,
            closeAuthority := if a.native.Some? then None else a.closeAuthority))
    case CloseAccountAuthority =>
      var _ :- ValidateOwner(s, CloseAuthorityOf(a), authority, signers);
      :- Need(!(a.GuardBlocks(ctx.inCpi) && newAuthority.Some?), CpiGuardSetAuthorityBlocked);
      Ok(a.(closeAuthority := newAuthority))
    case _ => Err(AuthorityTypeNotSupported)
  }

  /** The extension holding a plain authority of the given kind. */
  function PlainAuthorityType(kind: AuthorityType): Option<ExtensionType> {
    match kind
    case InterestRate => Some(INTEREST_BEARING_CONFIG)
    case ConfidentialTransferMint => Some(CONFIDENTIAL_TRANSFER_MINT)
    case TransferHookProgramId => Some(TRANSFER_HOOK)
    case ConfidentialTransferFeeConfig => Some(CONFIDENTIAL_TRANSFER_FEE_CONFIG)
    case MetadataPointer => Some(METADATA_POINTER)
    case GroupPointer => Some(GROUP_POINTER)
    case GroupMemberPointer => Some(GROUP_MEMBER_POINTER)
    case _ => None
  }

  /** An authority kept in an extension: it must be listed, be set, and agree; the new one must not be the zero key. */
  function ReplaceExtensionAuthority(s: State, m: Mint, t: ExtensionType, current: Option<Pubkey>,
                                     newAuthority: Option<Pubkey>,
                                     authority: Signer, signers: seq<Signer>): (r: Result<Option<Pubkey>>)
    ensures r.Ok? ==> t in m.types && current.Some? && r == Ok(newAuthority)
    ensures r.Ok? ==> ValidateOwner(s, current.value, authority, signers).Ok?
  {
    if t !in m.types then Err(ExtensionNotFound)
    else if current.None? then Err(AuthorityTypeNotSupported)
    else
      var _ :- ValidateOwner(s, current.value, authority, signers);
      NonZero(newAuthority)
  }

  function SetMintAuthority(s: State, m: Mint, kind: AuthorityType, newAuthority: Option<Pubkey>, authority: Signer,
                            signers: seq<Signer>): Result<Mint>
  {
    match kind
    case MintTokens =>
      :- Need(m.authority.Some?, FixedSupply);
      var _ :- ValidateOwner(s, m.authority.value, authority, signers);
      Ok(m.(authority := newAuthority))
    case FreezeAccountAuthority =>
      :- Need(m.freezeAuthority.Some?, MintCannotFreeze);
      var _ :- ValidateOwner(s, m.freezeAuthority.value, authority, signers);
      Ok(m.(freezeAuthority := newAuthority))
    case CloseMint =>
      var o :- ReplaceExtensionAuthority(s, m, MINT_CLOSE_AUTHORITY, m.ext.closeAuthority, newAuthority, authority,
                                         signers);
      Ok(m.(ext := m.ext.(closeAuthority := o)))
    case TransferFeeConfig =>
      var o :- ReplaceExtensionAuthority(s, m, TRANSFER_FEE_CONFIG, m.ext.fee.configAuthority, newAuthority, authority,
                                         signers);
      Ok(m.(ext := m.ext.(fee := m.ext.fee.(configAuthority := o))))
    case WithheldWithdraw =>
      var o :- ReplaceExtensionAuthority(s, m, TRANSFER_FEE_CONFIG, m.ext.fee.withdrawAuthority, newAuthority,
                                         authority, signers);
      Ok(m.(ext := m.ext.(fee := m.ext.fee.(withdrawAuthority := o))))
    case PermanentDelegate =>
      var o :- ReplaceExtensionAuthority(s, m, PERMANENT_DELEGATE, m.ext.permanentDelegate, newAuthority, authority,
                                         signers);
      Ok(m.(ext := m.ext.(permanentDelegate := o)))
    case _ =>
      var t := PlainAuthorityType(kind);
      :- Need(t.Some?, AuthorityTypeNotSupported);
      var current := if t.value in m.ext.authorities then m.ext.authorities[t.value] else None;
      var o :- ReplaceExtensionAuthority(s, m, t.value, current, newAuthority, authority, signers);
      Ok(m.(ext := m.ext.(authorities := m.ext.authorities[t.value := o])))
  }

  function SetAuthority(s: State, ctx: Ctx, k: Pubkey, kind: AuthorityType, newAuthority: Option<Pubkey>,
                        authority: Signer, signers: seq<Signer>): Result<State>
  {
    var i := Get(s, k);
    match i.data
    case TokenData(a) =>
      var a' :- SetTokenAuthority(s, ctx, a, kind, newAuthority, authority, signers);
      Ok(s[k := WithToken(i, a')])
    case MintData(m) =>
      var m' :- SetMintAuthority(s, m, kind, newAuthority, authority, signers);
      Ok(s[k := WithMint(i, m')])
    case _ => Err(InvalidAccountData)
  }

  // ------------------------------------------------------------------ supply

  function MintTo(s: State, mintKey: Pubkey, dest: Pubkey, decimals: Option<u8>, authority: Signer,
                  signers: seq<Signer>, amount: u64): Result<State>
  {
    var di, mi := Get(s, dest), Get(s, mintKey);
    var d :- UnpackToken(di);
    :- Need(!d.frozen, AccountFrozen);
    :- Need(d.native.None?, NativeNotSupported);
    :- Need(mintKey == d.mint, MintMismatch);
    var m :- UnpackMint(mi);
    :- Need(NON_TRANSFERABLE in m.types ==> IMMUTABLE_OWNER in d.types, NonTransferableNeedsImmutableOwnership);
    :- Need(decimals.Some? ==> decimals.value == m.decimals, MintDecimalsMismatch);
    :- Need(m.authority.Some?, FixedSupply);
    var _ :- ValidateOwner(s, m.authority.value, authority, signers);
    :- CheckProgram(mi.owner);
    :- CheckProgram(di.owner);
    :- Need(d.amount + amount <= U64_MAX, Overflow);
    :- Need(m.supply + amount <= U64_MAX, Overflow);
    Ok(s[dest := WithToken(di, d.(amount := d.amount + amount))]
        [mintKey := WithMint(mi, m.(supply := m.supply + amount))])
  }

  function Burn(s: State, ctx: Ctx, source: Pubkey, mintKey: Pubkey, decimals: Option<u8>, authority: Signer,
                signers: seq<Signer>, amount: u64): Result<State>
  {
    var si, mi := Get(s, source), Get(s, mintKey);
    var a :- UnpackToken(si);
    var m :- UnpackMint(mi);
    :- Need(!a.frozen, AccountFrozen);
    :- Need(a.native.None?, NativeNotSupported);
    :- Need(a.amount >= amount, InsufficientFunds);
    :- Need(mintKey == a.mint, MintMismatch);
    :- Need(decimals.Some? ==> decimals.value == m.decimals, MintDecimalsMismatch);
    var a' :-
      if a.OwnedBySystemOrIncinerator() then Ok(a)
      else AuthorizeDebit(s, ctx, a, PermanentDelegateOf(m), authority, signers, amount, true, CpiGuardBurnBlocked);
    :- CheckProgram(si.owner);
    :- CheckProgram(mi.owner);
    :- Need(m.supply >= amount, Overflow);
    Ok(s[source := WithToken(si, a'.(amount := a'.amount - amount))]
        [mintKey := WithMint(mi, m.(supply := m.supply - amount))])
  }

  // ------------------------------------------------------------------ closing

  function CheckCloseToken(s: State, ctx: Ctx, a: Token, dest: Pubkey, authority: Signer,
                           signers: seq<Signer>): Result<()>
  {
    if a.native.None? && a.amount != 0 then Err(NonNativeHasBalance)
    else
      var _ :-
        if !a.OwnedBySystemOrIncinerator() then
          if a.GuardBlocks(ctx.inCpi) && dest != a.owner then Err(CpiGuardCloseAccountBlocked)
          else ValidateOwner(s, CloseAuthorityOf(a), authority, signers)
        else if dest != INCINERATOR then Err(InvalidAccountData) else Ok(());
      :- Need(a.Withheld() == 0, AccountHasWithheldTransferFees);
      Ok(())
  }

  function CheckCloseMint(s: State, m: Mint, authority: Signer, signers: seq<Signer>): Result<()> {
    if MINT_CLOSE_AUTHORITY !in m.types then Err(ExtensionNotFound)
    else if m.ext.closeAuthority.None? then Err(AuthorityTypeNotSupported)
    else
      var _ :- ValidateOwner(s, m.ext.closeAuthority.value, authority, signers);
      :- Need(m.supply == 0, MintHasSupply);
      Ok(())
  }

  function CloseAccount(s: State, ctx: Ctx, k: Pubkey, dest: Pubkey, authority: Signer,
                        signers: seq<Signer>): Result<State>
  {
    var i, di := Get(s, k), Get(s, dest);
    :- Need(k != dest, InvalidAccountData);
    var _ :- match i.data
      case TokenData(a) => CheckCloseToken(s, ctx, a, dest, authority, signers)
      case MintData(m) => CheckCloseMint(s, m, authority, signers)
      case _ => Err(UninitializedAccount);
    :- Need(di.lamports + i.lamports <= U64_MAX, Overflow);
    // the account is handed back to the system program, without data
    Ok(s[dest := di.(lamports := di.lamports + i.lamports)][k := ABSENT])
  }

  // ------------------------------------------------------------------ freezing

  function ToggleFreeze(s: State, k: Pubkey, mintKey: Pubkey, authority: Signer, signers: seq<Signer>,
                        freeze: bool): Result<State>
  {
    var i := Get(s, k);
    var a :- UnpackToken(i);
    :- Need(a.frozen != freeze, InvalidState);
    :- Need(a.native.None?, NativeNotSupported);
    :- Need(mintKey == a.mint, MintMismatch);
    var m :- UnpackMint(Get(s, mintKey));
    :- Need(m.freezeAuthority.Some?, MintCannotFreeze);
    var _ :- ValidateOwner(s, m.freezeAuthority.value, authority, signers);
    Ok(s[k := WithToken(i, a.(frozen := freeze))])
  }

  function UpdateDefaultAccountState(s: State, k: Pubkey, frozen: bool, authority: Signer,
                                     signers: seq<Signer>): Result<State>
  {
    var i := Get(s, k);
    var m :- UnpackMint(i);
    :- Need(m.freezeAuthority.Some?, NoAuthorityExists);
    var _ :- ValidateOwner(s, m.freezeAuthority.value, authority, signers);
    :- Need(DEFAULT_ACCOUNT_STATE in m.types, ExtensionNotFound);
    Ok(s[k := WithMint(i, m.(ext := m.ext.(defaultFrozen := frozen)))])
  }

  // ------------------------------------------------------------------ lamports and data length

  function SyncNative(s: State, k: Pubkey): Result<State> {
    var i := Get(s, k);
    :- CheckProgram(i.owner);
    var a :- UnpackToken(i);
    :- Need(a.native.Some?, NonNativeNotSupported);
    :- Need(i.lamports >= a.native.value, Overflow);
    :- Need(i.lamports - a.native.value >= a.amount, InvalidState);
    Ok(s[k := WithToken(i, a.(amount := i.lamports - a.native.value))])
  }

  function CheckWithdrawExcess(s: State, k: Pubkey, authority: Signer, signers: seq<Signer>): Result<()> {
    var i := Get(s, k);
    match i.data
    case TokenData(a) =>
      :- Need(a.native.None?, NativeNotSupported);
      ValidateOwner(s, a.owner, authority, signers)
    case MintData(m) =>
      :- Need(m.authority.Some?, AuthorityTypeNotSupported);
      ValidateOwner(s, m.authority.value, authority, signers)
    case _ =>
      :- Need(i.dataLen == MULTISIG_LEN, InvalidState);
      ValidateOwner(s, k, authority, signers)
  }

  function WithdrawExcessLamports(s: State, ctx: Ctx, k: Pubkey, dest: Pubkey, authority: Signer,
                                  signers: seq<Signer>): Result<State>
  {
    var i := Get(s, k);
    var _ :- CheckWithdrawExcess(s, k, authority, signers);
    var reserve := ctx.rent(i.dataLen);
    :- Need(i.lamports >= reserve, NotRentExempt);
    var s' := s[k := i.(lamports := reserve)];
    var di := Get(s', dest);
    :- Need(di.lamports + (i.lamports - reserve) <= U64_MAX, Overflow);
    Ok(s'[dest := di.(lamports := di.lamports + (i.lamports - reserve))])
  }

  /** `system_instruction::transfer`: the payer signs, holds no data, belongs to the system program and can pay. */
  function SystemTransfer(s: State, payer: Signer, dest: Pubkey, lamports: nat): Result<State> {
    var pi := Get(s, payer.key);
    :- Need(payer.isSigner, MissingRequiredSignature);
    :- Need(pi.owner == SYSTEM_PROGRAM && pi.dataLen == 0, InvalidArgument);
    :- Need(pi.lamports >= lamports, InsufficientLamports);
    var s' := s[payer.key := pi.(lamports := pi.lamports - lamports)];
    var di := Get(s', dest);
    :- Need(di.lamports + lamports <= U64_MAX, Overflow);
    Ok(s'[dest := di.(lamports := di.lamports + lamports)])
  }

  function Reallocate(s: State, ctx: Ctx, k: Pubkey, payer: Signer, authority: Signer, signers: seq<Signer>,
                      newTypes: seq<ExtensionType>): Result<State>
  {
    var i := Get(s, k);
    var a :- UnpackToken(i);
    var _ :- ValidateOwner(s, a.owner, authority, signers);
    :- Need(forall t :: t in newTypes ==> AccountTypeOf(t) == Account, InvalidState);
    var needed :- TryCalculateAccountLen(AccountBase, a.types + newTypes);
    if i.dataLen >= needed then Ok(s)
    else Grow(s, ctx, k, payer, needed)
  }

  /** The part of `process_reallocate` that changes the account. */
  function Grow(s: State, ctx: Ctx, k: Pubkey, payer: Signer, needed: nat): Result<State>
    requires Get(s, k).data.TokenData?
  {
    var i := Get(s, k);
    var a := i.data.token;
    var reserve := ctx.rent(needed);
    var nativeAmount := if a.native.Some? then a.amount else 0;
    :- Need(i.lamports >= nativeAmount, Overflow);
    var current := i.lamports - nativeAmount;
    var diff := if reserve > current then reserve - current else 0;
    var grown := s[k := i.(dataLen := needed)];
    var paid :- if diff > 0 then SystemTransfer(grown, payer, k, diff) else Ok(grown);
    if a.native.None? then Ok(paid)
    else
      var i' := Get(paid, k);
      :- Need(reserve + a.amount <= U64_MAX, Overflow);
      :- Need(i'.lamports >= reserve + a.amount, InvalidState);
      Ok(paid[k := WithToken(i', a.(native := Some(reserve)))])
  }

  function CreateNativeMint(s: State, ctx: Ctx, payer: Signer): Result<State> {
    var reserve := ctx.rent(MINT_LEN);
    var have := Get(s, NATIVE_MINT).lamports;
    var paid :- SystemTransfer(s, payer, NATIVE_MINT, if reserve > have then reserve - have else 0);
    var i := Get(paid, NATIVE_MINT);
    :- Need(i.owner == SYSTEM_PROGRAM && i.dataLen == 0, AlreadyInUse);
    Ok(paid[NATIVE_MINT := Info(TOKEN_PROGRAM, i.lamports, MINT_LEN,
                                MintData(Mint.Mint(None, 0, NATIVE_DECIMALS, None, [], NO_MINT_EXT)))])
  }

  // ------------------------------------------------------------------ account options

  function ToggleCpiGuard(s: State, ctx: Ctx, k: Pubkey, authority: Signer, signers: seq<Signer>,
                          enable: bool): Result<State>
  {
    var i := Get(s, k);
    var a :- UnpackToken(i);
    var _ :- ValidateOwner(s, a.owner, authority, signers);
    :- Need(!ctx.inCpi, CpiGuardSettingsLocked);
    var types :- InitExtension(i.dataLen, a.types, CPI_GUARD);
    Ok(s[k := WithToken(i, a.(types := types, lockCpi := enable))])
  }

  function ToggleMemo(s: State, k: Pubkey, authority: Signer, signers: seq<Signer>, enable: bool): Result<State> {
    var i := Get(s, k);
    var a :- UnpackToken(i);
    var _ :- ValidateOwner(s, a.owner, authority, signers);
    var types :- InitExtension(i.dataLen, a.types, MEMO_TRANSFER);
    Ok(s[k := WithToken(i, a.(types := types, memoRequired := enable))])
  }

  // ------------------------------------------------------------------ withheld fees

  function SetTransferFee(s: State, ctx: Ctx, k: Pubkey, authority: Signer, signers: seq<Signer>, basisPoints: u16,
                          maximumFee: u64): Result<State>
  {
    var i := Get(s, k);
    var m :- UnpackMint(i);
    :- Need(TRANSFER_FEE_CONFIG in m.types, ExtensionNotFound);
    var fee := m.ext.fee;
    :- Need(fee.configAuthority.Some?, NoAuthorityExists);
    var _ :- ValidateOwner(s, fee.configAuthority.value, authority, signers);
    :- Need(basisPoints <= ONE_IN_BASIS_POINTS, TransferFeeExceedsMaximum);
    var older := if fee.newer.epoch <= ctx.epoch then fee.newer else fee.older;
    var start := if ctx.epoch + 2 <= U64_MAX then ctx.epoch + 2 else U64_MAX;
    var newer := TransferFee(start, maximumFee, basisPoints);
    Ok(s[k := WithMint(i, m.(ext := m.ext.(fee := fee.(older := older, newer := newer))))])
  }

  /** The checks shared by both withdrawals of withheld tokens: the destination account. */
  function CheckWithdrawal(s: State, mintKey: Pubkey, dest: Pubkey, authority: Signer,
                           signers: seq<Signer>): Result<Token>
  {
    var mi := Get(s, mintKey);
    :- CheckProgram(mi.owner);
    var m :- UnpackMint(mi);
    :- Need(TRANSFER_FEE_CONFIG in m.types, ExtensionNotFound);
    :- Need(m.ext.fee.withdrawAuthority.Some?, NoAuthorityExists);
    var _ :- ValidateOwner(s, m.ext.fee.withdrawAuthority.value, authority, signers);
    var d :- UnpackToken(Get(s, dest));
    :- Need(d.mint == mintKey, MintMismatch);
    :- Need(!d.frozen, AccountFrozen);
    Ok(d)
  }

  function WithMintWithheld(i: Info, withheld: u64): Info
    requires i.data.MintData?
  {
    var m := i.data.mint;
    WithMint(i, m.(ext := m.ext.(fee := m.ext.fee.(withheld := withheld))))
  }

  function WithdrawWithheldFromMint(s: State, mintKey: Pubkey, dest: Pubkey, authority: Signer,
                                    signers: seq<Signer>): Result<State>
  {
    var d :- CheckWithdrawal(s, mintKey, dest, authority, signers);
    var mi, di := Get(s, mintKey), Get(s, dest);
    var withheld := mi.data.mint.ext.fee.withheld;
    :- Need(d.amount + withheld <= U64_MAX, Overflow);
    Ok(s[mintKey := WithMintWithheld(mi, 0)][dest := WithToken(di, d.(amount := d.amount + withheld))])
  }

  /** Whether `harvest_from_account` takes the account's withheld tokens; otherwise the account is skipped. */
  predicate Harvestable(s: State, mintKey: Pubkey, k: Pubkey) {
    IsToken(s, k) && TokenAt(s, k).mint == mintKey && TRANSFER_FEE_AMOUNT in TokenAt(s, k).types
  }

  function Emptied(s: State, k: Pubkey): State
    requires IsToken(s, k)
  {
    s[k := WithToken(Get(s, k), TokenAt(s, k).(withheld := 0))]
  }

  /** One round of the harvesting loop: the withheld tokens of `k` move to the mint. */
  function HarvestOne(s: State, mintKey: Pubkey, k: Pubkey): Result<State>
    requires Get(s, mintKey).data.MintData?
  {
    if !Harvestable(s, mintKey, k) then Ok(s)
    else
      var mi := Get(s, mintKey);
      var withheld := mi.data.mint.ext.fee.withheld + TokenAt(s, k).withheld;
      :- Need(withheld <= U64_MAX, Overflow);
      Ok(Emptied(s, k)[mintKey := WithMintWithheld(mi, withheld)])
  }

  function HarvestAll(s: State, mintKey: Pubkey, sources: seq<Pubkey>): (r: Result<State>)
    requires Get(s, mintKey).data.MintData?
    ensures r.Ok? ==> Get(r.value, mintKey).data.MintData?
  {
    if sources == [] then Ok(s)
    else
      var before :- HarvestAll(s, mintKey, sources[..|sources| - 1]);
      HarvestOne(before, mintKey, sources[|sources| - 1])
  }

  function HarvestWithheldToMint(s: State, mintKey: Pubkey, sources: seq<Pubkey>): Result<State> {
    var m :- UnpackMint(Get(s, mintKey));
    :- Need(TRANSFER_FEE_CONFIG in m.types, ExtensionNotFound);
    HarvestAll(s, mintKey, sources)
  }

  /** One round of the withdrawing loop: the withheld tokens of `k` become tokens of the destination. */
  function WithdrawOne(s: State, mintKey: Pubkey, dest: Pubkey, k: Pubkey): Result<State>
    requires Get(s, dest).data.TokenData?
  {
    var di := Get(s, dest);
    var d := di.data.token;
    if k == dest then
      :- Need(TRANSFER_FEE_AMOUNT in d.types, InvalidState);
      :- Need(d.amount + d.withheld <= U64_MAX, Overflow);
      Ok(s[dest := WithToken(di, d.(amount := d.amount + d.withheld, withheld := 0))])
    else if !Harvestable(s, mintKey, k) then Ok(s)
    else
      :- Need(d.amount + TokenAt(s, k).withheld <= U64_MAX, Overflow);
      Ok(Emptied(s, k)[dest := WithToken(di, d.(amount := d.amount + TokenAt(s, k).withheld))])
  }

  function WithdrawAll(s: State, mintKey: Pubkey, dest: Pubkey, sources: seq<Pubkey>): (r: Result<State>)
    requires Get(s, dest).data.TokenData?
    ensures r.Ok? ==> Get(r.value, dest).data.TokenData?
  {
    if sources == [] then Ok(s)
    else
      var before :- WithdrawAll(s, mintKey, dest, sources[..|sources| - 1]);
      WithdrawOne(before, mintKey, dest, sources[|sources| - 1])
  }

  function WithdrawWithheldFromAccounts(s: State, mintKey: Pubkey, dest: Pubkey, authority: Signer,
                                        signers: seq<Signer>, sources: seq<Pubkey>): Result<State>
  {
    var _ :- CheckWithdrawal(s, mintKey, dest, authority, signers);
    WithdrawAll(s, mintKey, dest, sources)
  }
}
