/** Errors tell the truth: in a reachable state an instruction returns an error only for the reason the error names. */
module LedgerReasons {
  import opened Bytes
  import opened Common
  import opened ExtensionTypes
  import opened TransferFees
  import opened LedgerState
  import opened LedgerRuns
  import opened LedgerGood
  import opened LedgerBounds
  import opened LedgerTokens
  import opened LedgerTheorems
  import opened LedgerConditions
  import opened LedgerWithheld
  import opened LedgerEffects
  import opened LedgerSetup
  import Multisigs
  import L = Ledger

  function AsSet(o: Option<Pubkey>): set<Pubkey> {
    match o case Some(k) => {k} case None => {}
  }

  predicate HasAuthority(i: Instr) {
    || i.Transfer? || i.Approve? || i.Revoke? || i.SetAuthority? || i.MintTo? || i.Burn? || i.CloseAccount?
    || i.ToggleFreeze? || i.UpdateDefaultAccountState? || i.WithdrawExcessLamports? || i.Reallocate?
    || i.ToggleCpiGuard? || i.ToggleMemo? || i.SetTransferFee? || i.WithdrawWithheldFromMint?
    || i.WithdrawWithheldFromAccounts?
  }

  function CloserOf(a: Token): Pubkey {
    if a.closeAuthority.Some? then a.closeAuthority.value else a.owner
  }

  /** Who decides on a token account, for the instruction. */
  function InChargeOfToken(s: State, i: Instr, a: Token): set<Pubkey> {
    if i.CloseAccount? || (i.SetAuthority? && i.kind.CloseAccountAuthority?) then {CloserOf(a)}
    else if i.Revoke? then {a.owner} + AsSet(a.delegate)
    else if i.Transfer? then
      {a.owner} + AsSet(a.delegate)
      + AsSet(if MintNamed(s, i).Some? then PermanentDelegateOf(MintNamed(s, i).value) else None)
    else if i.Burn? then
      {a.owner} + AsSet(a.delegate)
      + AsSet(if HasMint(s, i.mint) then PermanentDelegateOf(Get(s, i.mint).data.mint) else None)
    else {a.owner}
  }

  /** Who decides on a mint, for the instruction. */
  function InChargeOfMint(i: Instr, m: Mint): set<Pubkey> {
    if i.MintTo? || i.WithdrawExcessLamports? then AsSet(m.authority)
    else if i.ToggleFreeze? || i.UpdateDefaultAccountState? then AsSet(m.freezeAuthority)
    else if i.CloseAccount? then AsSet(AuthorityAt(m, AuthorityType.CloseMint))
    else if i.SetTransferFee? then AsSet(AuthorityAt(m, AuthorityType.TransferFeeConfig))
    else if i.SetAuthority? then AsSet(AuthorityAt(m, i.kind))
    else AsSet(AuthorityAt(m, AuthorityType.WithheldWithdraw))
  }

  /** The account the authority must have a say in. */
  function Decided(i: Instr): Pubkey
    requires HasAuthority(i)
  {
    match i
    case MintTo(m, _, _, _, _, _) => m
    case ToggleFreeze(_, m, _, _, _) => m
    case UpdateDefaultAccountState(m, _, _, _) => m
    case SetTransferFee(m, _, _, _, _) => m
    case WithdrawWithheldFromMint(m, _, _, _) => m
    case WithdrawWithheldFromAccounts(m, _, _, _, _) => m
    case Transfer(k, _, _, _, _, _, _) => k
    case Approve(k, _, _, _, _, _) => k
    case Revoke(k, _, _) => k
    case SetAuthority(k, _, _, _, _) => k
    case Burn(k, _, _, _, _, _) => k
    case CloseAccount(k, _, _, _) => k
    case WithdrawExcessLamports(k, _, _, _) => k
    case Reallocate(k, _, _, _, _) => k
    case ToggleCpiGuard(k, _, _, _) => k
    case ToggleMemo(k, _, _, _) => k
  }

  function InCharge(s: State, i: Instr): set<Pubkey>
    requires HasAuthority(i)
  {
    match Get(s, Decided(i)).data
    case TokenData(a) => InChargeOfToken(s, i, a)
    case MintData(m) => InChargeOfMint(i, m)
    case _ => {Decided(i)}
  }

  /** The mint an instruction names for its token account. */
  function MintOf(i: Instr): Option<Pubkey> {
    match i
    case Transfer(_, checked, _, _, _, _, _) => if checked.Some? then Some(checked.value.mint) else None
    case Approve(_, checked, _, _, _, _) => if checked.Some? then Some(checked.value.mint) else None
    case MintTo(m, _, _, _, _, _) => Some(m)
    case Burn(_, m, _, _, _, _) => Some(m)
    case ToggleFreeze(_, m, _, _, _) => Some(m)
    case WithdrawWithheldFromMint(m, _, _, _) => Some(m)
    case WithdrawWithheldFromAccounts(m, _, _, _, _) => Some(m)
    case _ => None
  }

  /** An account named is not the token account, or the mint, it must be. */
  predicate WrongKind(s: State, i: Instr) {
    match i
    case Transfer(k, checked, dest, _, _, _, _) =>
      !HasToken(s, k) || !HasToken(s, dest) || (checked.Some? && !HasMint(s, checked.value.mint))
    case Approve(k, checked, _, _, _, _) => !HasToken(s, k) || (checked.Some? && !HasMint(s, checked.value.mint))
    case MintTo(m, k, _, _, _, _) => !HasToken(s, k) || !HasMint(s, m)
    case Burn(k, m, _, _, _, _) => !HasToken(s, k) || !HasMint(s, m)
    case ToggleFreeze(k, m, _, _, _) => !HasToken(s, k) || !HasMint(s, m)
    case WithdrawWithheldFromMint(m, k, _, _) => !HasToken(s, k) || !HasMint(s, m)
    case WithdrawWithheldFromAccounts(m, k, _, _, _) => !HasToken(s, k) || !HasMint(s, m)
    case HarvestWithheldToMint(m, _) => !HasMint(s, m)
    case UpdateDefaultAccountState(m, _, _, _) => !HasMint(s, m)
    case SetTransferFee(m, _, _, _, _) => !HasMint(s, m)
    case Revoke(k, _, _) => !HasToken(s, k)
    case Reallocate(k, _, _, _, _) => !HasToken(s, k)
    case ToggleCpiGuard(k, _, _, _) => !HasToken(s, k)
    case ToggleMemo(k, _, _, _) => !HasToken(s, k)
    case SyncNative(k) => !HasToken(s, k)
    case SetAuthority(k, _, _, _, _) => !HasToken(s, k) && !HasMint(s, k)
    case CloseAccount(k, _, _, _) => !HasToken(s, k) && !HasMint(s, k)
    case _ => false
  }

  /** The reason for each error of a transfer out of an account. */
  ghost predicate TransferRefused(s: State, ctx: Ctx, i: Instr, a: Token, e: Error)
    requires i.Transfer? && Get(s, i.account).data == TokenData(a)
  {
    match e
    case AccountFrozen => a.frozen || (HasToken(s, i.dest) && Get(s, i.dest).data.token.frozen)
    case InsufficientFunds =>
      i.amount > a.amount || (a.delegate == Some(i.authority.key) && i.amount > a.delegatedAmount)
    case NonTransferable => NON_TRANSFERABLE_ACCOUNT in a.types
    case MintRequiredForTransfer => !MayOmitMint(a, i.checked)
    case FeeMismatch => i.expectedFee.Some? && i.expectedFee != FeeDue(s, ctx, i)
    case MintMismatch =>
      || (i.checked.Some? && i.checked.value.mint != a.mint)
      || (HasToken(s, i.dest) && Get(s, i.dest).data.token.mint != a.mint)
    case MintDecimalsMismatch => i.checked.Some? && !NamesOwnMint(s, a, i.checked)
    case OwnerMismatch => i.authority.key !in InCharge(s, i)
    case MissingRequiredSignature =>
      i.authority.key in InCharge(s, i) && !Agrees(s, i.authority.key, i.authority, i.signers)
    case CpiGuardTransferBlocked => Locked(a) && ctx.inCpi && i.authority.key == a.owner
    case NoMemo => HasToken(s, i.dest) && Get(s, i.dest).data.token.memoRequired && !ctx.memoBefore
    case ExtensionNotFound =>
      && MintNamed(s, i).Some? && HookProgramOf(MintNamed(s, i).value).Some? && HasToken(s, i.dest)
      && (TRANSFER_HOOK_ACCOUNT !in a.types || TRANSFER_HOOK_ACCOUNT !in Get(s, i.dest).data.token.types)
    case HookFailed => !ctx.hookSucceeds
    case InvalidState =>
      && FeeDue(s, ctx, i) != Some(0) && HasToken(s, i.dest)
      && TRANSFER_FEE_AMOUNT !in Get(s, i.dest).data.token.types
    case Overflow =>
      FeeDue(s, ctx, i).None? || (a.native.Some? && Get(s, i.dest).lamports + i.amount > U64_MAX)
    case IncorrectProgramId => Get(s, i.account).owner != TOKEN_PROGRAM || Get(s, i.dest).owner != TOKEN_PROGRAM
    case UninitializedAccount => WrongKind(s, i)
    case InvalidAccountData => WrongKind(s, i)
    case _ => false
  }

  /** The check of an authority fails because another one was expected, or because the signatures do not suffice. */
  lemma OwnerErrors(s: State, p: Pubkey, authority: Signer, signers: seq<Signer>)
    requires Good(s)
    ensures match Multisigs.ValidateOwner(s, p, authority, signers)
            case Ok(_) => authority.key == p
            case Err(e) =>
              if authority.key == p then e == MissingRequiredSignature && !Agrees(s, p, authority, signers)
              else e == OwnerMismatch
  {
    hide Multisigs.Authorizes, Good;
    GoodAt(s, authority.key);
  }

  /** The debit of a transfer or burn is refused for one of four reasons. */
  lemma DebitErrors(s: State, ctx: Ctx, a: Token, permanent: Option<Pubkey>, authority: Signer, signers: seq<Signer>,
                    amount: u64, charge: bool, blocked: Error)
    requires Good(s) && L.AuthorizeDebit(s, ctx, a, permanent, authority, signers, amount, charge, blocked).Err?
    ensures var e := L.AuthorizeDebit(s, ctx, a, permanent, authority, signers, amount, charge, blocked).error;
            var mayAct := authority.key in {a.owner} + AsSet(a.delegate) + AsSet(permanent);
            || (e == OwnerMismatch && !mayAct)
            || (e == MissingRequiredSignature && mayAct && !Agrees(s, authority.key, authority, signers))
            || (e == InsufficientFunds && a.delegate == Some(authority.key) && amount > a.delegatedAmount)
            || (e == blocked && Locked(a) && ctx.inCpi && authority.key == a.owner)
  {
    hide Multisigs.ValidateOwner, Good;
    OwnerErrors(s, authority.key, authority, signers);
    OwnerErrors(s, a.owner, authority, signers);
  }

  lemma MoveErrors(s: State, ctx: Ctx, source: Pubkey, a: Token, dest: Pubkey, amount: u64, fee: u64,
                   hook: Option<Pubkey>)
    requires L.Move(s, ctx, source, a, dest, amount, fee, hook).Err?
    ensures var e, di := L.Move(s, ctx, source, a, dest, amount, fee, hook).error, Get(s, dest);
            if !di.data.TokenData? then e == UninitializedAccount || e == InvalidAccountData
            else
              var d := di.data.token;
              || (e == AccountFrozen && d.frozen) || (e == MintMismatch && a.mint != d.mint)
              || (e == NoMemo && d.memoRequired && !ctx.memoBefore)
              || (e == InvalidState && fee > 0 && TRANSFER_FEE_AMOUNT !in d.types)
              || (e == ExtensionNotFound && hook.Some?
                  && (TRANSFER_HOOK_ACCOUNT !in a.types || TRANSFER_HOOK_ACCOUNT !in d.types))
              || (e == HookFailed && !ctx.hookSucceeds)
              || e == Overflow
  {
  }

  lemma TermsErrors(s: State, ctx: Ctx, i: Instr, a: Token)
    requires i.Transfer? && Get(s, i.account).data == TokenData(a)
    requires L.TransferTerms(s, ctx, a, i.checked, i.amount).Err?
    ensures var e := L.TransferTerms(s, ctx, a, i.checked, i.amount).error;
            || (e == MintRequiredForTransfer && !MayOmitMint(a, i.checked))
            || (e == MintMismatch && i.checked.Some? && i.checked.value.mint != a.mint)
            || ((e == UninitializedAccount || e == InvalidAccountData) && WrongKind(s, i))
            || (e == MintDecimalsMismatch && i.checked.Some? && !NamesOwnMint(s, a, i.checked))
            || (e == Overflow && FeeDue(s, ctx, i).None?)
  {
    hide CalculateFee;
  }

  lemma TermsAre(s: State, ctx: Ctx, i: Instr, a: Token)
    requires i.Transfer? && Get(s, i.account).data == TokenData(a)
    requires L.TransferTerms(s, ctx, a, i.checked, i.amount).Ok?
    ensures var (fee, permanent, hook) := L.TransferTerms(s, ctx, a, i.checked, i.amount).value;
            && FeeDue(s, ctx, i) == Some(fee)
            && permanent == (if MintNamed(s, i).Some? then PermanentDelegateOf(MintNamed(s, i).value) else None)
            && hook == (if MintNamed(s, i).Some? then HookProgramOf(MintNamed(s, i).value) else None)
  {
    hide CalculateFee;
  }

  /** A native transfer overflows only in the destination's lamports. */
  lemma NativeOverflow(s: State, ctx: Ctx, i: Instr, a': Token, fee: u64, hook: Option<Pubkey>)
    requires Inv(s) && i.Transfer? && IsToken(s, i.account) && i.account != i.dest
        && Get(s, i.dest).owner == TOKEN_PROGRAM
    requires var a := TokenAt(s, i.account);
             a' == a.(delegate := a'.delegate, delegatedAmount := a'.delegatedAmount) && a.native.Some?
    requires i.amount <= TokenAt(s, i.account).amount && FeeDue(s, ctx, i) == Some(fee)
    requires NamesOwnMint(s, TokenAt(s, i.account), i.checked)
    requires L.Move(s, ctx, i.account, a', i.dest, i.amount, fee, hook) == Err(Overflow)
    ensures Get(s, i.dest).lamports + i.amount > U64_MAX
  {
    hide Good, FeeDue;
    InvGood(s);
    GoodAt(s, i.account);
    GoodAt(s, i.dest);
    NativeIsFree(s, ctx, i);
  }

  lemma TermsNameMint(s: State, ctx: Ctx, i: Instr, a: Token)
    requires i.Transfer? && Get(s, i.account).data == TokenData(a)
    requires L.TransferTerms(s, ctx, a, i.checked, i.amount).Ok?
    ensures NamesOwnMint(s, a, i.checked)
  {
    hide CalculateFee;
  }

  lemma TransferDebitErrors(s: State, ctx: Ctx, i: Instr, a: Token, permanent: Option<Pubkey>)
    requires Good(s) && i.Transfer? && Get(s, i.account).data == TokenData(a)
    requires permanent == if MintNamed(s, i).Some? then PermanentDelegateOf(MintNamed(s, i).value) else None
    requires L.AuthorizeDebit(s, ctx, a, permanent, i.authority, i.signers, i.amount, i.account != i.dest,
                              CpiGuardTransferBlocked).Err?
    ensures TransferRefused(s, ctx, i, a,
              L.AuthorizeDebit(s, ctx, a, permanent, i.authority, i.signers, i.amount, i.account != i.dest,
                               CpiGuardTransferBlocked).error)
  {
    hide L.AuthorizeDebit, Good, FeeDue, NamesOwnMint, WrongKind, MintNamed;
    DebitErrors(s, ctx, a, permanent, i.authority, i.signers, i.amount, i.account != i.dest, CpiGuardTransferBlocked);
  }

  lemma TransferMoveErrors(s: State, ctx: Ctx, i: Instr, a: Token, a': Token, fee: u64, hook: Option<Pubkey>)
    requires Inv(s) && i.Transfer? && IsToken(s, i.account) && a == TokenAt(s, i.account) && i.account != i.dest
    requires Get(s, i.dest).owner == TOKEN_PROGRAM
    requires a' == a.(delegate := a'.delegate, delegatedAmount := a'.delegatedAmount) && i.amount <= a.amount
    requires FeeDue(s, ctx, i) == Some(fee) && NamesOwnMint(s, a, i.checked)
    requires hook == if MintNamed(s, i).Some? then HookProgramOf(MintNamed(s, i).value) else None
    requires L.Move(s, ctx, i.account, a', i.dest, i.amount, fee, hook).Err?
    requires a.native.None? ==> L.Move(s, ctx, i.account, a', i.dest, i.amount, fee, hook) != Err(Overflow)
    ensures TransferRefused(s, ctx, i, a, L.Move(s, ctx, i.account, a', i.dest, i.amount, fee, hook).error)
  {
    hide L.Move, Inv, FeeDue, NamesOwnMint, MintNamed, HookProgramOf, InCharge;
    MoveErrors(s, ctx, i.account, a', i.dest, i.amount, fee, hook);
    if L.Move(s, ctx, i.account, a', i.dest, i.amount, fee, hook) == Err(Overflow) {
      NativeOverflow(s, ctx, i, a', fee, hook);
    }
  }

  /** A transfer fails for the reason it names. */
  lemma TransferErrors(s: State, ctx: Ctx, i: Instr)
    requires Inv(s) && i.Transfer? && HasToken(s, i.account) && Process(s, ctx, i).Err?
    ensures TransferRefused(s, ctx, i, Get(s, i.account).data.token, Process(s, ctx, i).error)
  {
    hide L.AuthorizeDebit, L.Move, L.TransferTerms, Inv, TransferRefused;
    var a := Get(s, i.account).data.token;
    var terms := L.TransferTerms(s, ctx, a, i.checked, i.amount);
    if terms.Err? {
      TransferEarly(s, ctx, i, a);
    } else {
      var (fee, permanent, hook) := terms.value;
      TransferEarly(s, ctx, i, a);
      TermsAre(s, ctx, i, a);
      TermsNameMint(s, ctx, i, a);
      InvGood(s);
      var r := L.AuthorizeDebit(s, ctx, a, permanent, i.authority, i.signers, i.amount, i.account != i.dest,
                                CpiGuardTransferBlocked);
      if r.Err? {
        TransferDebitErrors(s, ctx, i, a, permanent);
      } else if i.account != i.dest && IsToken(s, i.account) && Get(s, i.dest).owner == TOKEN_PROGRAM
                && a.amount >= i.amount {
        DebitKeepsAmount(s, ctx, a, permanent, i.authority, i.signers, i.amount);
        NativeIff(s, i.account);
        if a.native.None? { TransferNeverOverflows(s, ctx, i); }
        if Process(s, ctx, i) == L.Move(s, ctx, i.account, r.value, i.dest, i.amount, fee, hook) {
          TransferMoveErrors(s, ctx, i, a, r.value, fee, hook);
        }
      }
    }
  }

  /** The checks in front of the authority, and those of the program's ownership. */
  lemma TransferEarly(s: State, ctx: Ctx, i: Instr, a: Token)
    requires i.Transfer? && Get(s, i.account).data == TokenData(a)
    ensures var terms := L.TransferTerms(s, ctx, a, i.checked, i.amount);
            && (a.frozen ==> TransferRefused(s, ctx, i, a, AccountFrozen))
            && (i.amount > a.amount ==> TransferRefused(s, ctx, i, a, InsufficientFunds))
            && (NON_TRANSFERABLE_ACCOUNT in a.types ==> TransferRefused(s, ctx, i, a, NonTransferable))
            && (terms.Err? ==> TransferRefused(s, ctx, i, a, terms.error))
            && (terms.Ok? && i.expectedFee.Some? && i.expectedFee.value != terms.value.0 ==>
                  TransferRefused(s, ctx, i, a, FeeMismatch))
            && (Get(s, i.account).owner != TOKEN_PROGRAM || Get(s, i.dest).owner != TOKEN_PROGRAM ==>
                  TransferRefused(s, ctx, i, a, IncorrectProgramId))
  {
    hide L.TransferTerms, FeeDue, NamesOwnMint, WrongKind, MintNamed, InCharge;
    if L.TransferTerms(s, ctx, a, i.checked, i.amount).Err? {
      TermsErrors(s, ctx, i, a);
    } else {
      TermsAre(s, ctx, i, a);
    }
  }

  // ------------------------------------------------------------------ every other instruction

  /** Instructions other than a transfer that somebody must agree to, on one token account, one mint or both. */
  predicate OnTokens(i: Instr) {
    HasAuthority(i) && !i.Transfer? && !i.Reallocate? && !i.WithdrawExcessLamports?
  }

  function TokenKey(i: Instr): Pubkey
    requires OnTokens(i)
  {
    if i.MintTo? || i.WithdrawWithheldFromMint? || i.WithdrawWithheldFromAccounts? then i.dest
    else if i.UpdateDefaultAccountState? || i.SetTransferFee? then i.mint
    else i.account
  }

  function MintKey(i: Instr): Pubkey
    requires OnTokens(i)
  {
    if MintOf(i).Some? then MintOf(i).value else Decided(i)
  }

  /** What the error says about the token account. */
  predicate SaysOfToken(ctx: Ctx, i: Instr, a: Token, e: Error)
    requires OnTokens(i)
  {
    match e
    case AccountFrozen => a.frozen
    case NativeNotSupported => (i.MintTo? || i.Burn? || i.ToggleFreeze?) && a.native.Some?
    case MintMismatch => MintOf(i).Some? && a.mint != MintOf(i).value
    case InsufficientFunds =>
      i.Burn? && (i.amount > a.amount || (a.delegate == Some(i.authority.key) && i.amount > a.delegatedAmount))
    case NonNativeHasBalance => i.CloseAccount? && a.native.None? && a.amount > 0
    case AccountHasWithheldTransferFees => i.CloseAccount? && TRANSFER_FEE_AMOUNT in a.types && a.withheld > 0
    case ImmutableOwner => i.SetAuthority? && i.kind.AccountOwner? && IMMUTABLE_OWNER in a.types
    case NonTransferableNeedsImmutableOwnership => i.MintTo? && IMMUTABLE_OWNER !in a.types
    case CpiGuardBurnBlocked => i.Burn? && Locked(a) && ctx.inCpi
    case CpiGuardApproveBlocked => i.Approve? && Locked(a) && ctx.inCpi
    case CpiGuardSetAuthorityBlocked => i.SetAuthority? && Locked(a) && ctx.inCpi
    case CpiGuardOwnerChangeBlocked => i.SetAuthority? && Locked(a) && !ctx.inCpi
    case CpiGuardCloseAccountBlocked => i.CloseAccount? && Locked(a) && ctx.inCpi && i.dest != a.owner
    case AuthorityTypeNotSupported => i.SetAuthority? && !i.kind.AccountOwner? && !i.kind.CloseAccountAuthority?
    case InvalidInstruction => i.SetAuthority? && i.kind.AccountOwner? && i.newAuthority.None?
    case InvalidState =>
      || (i.ToggleFreeze? && a.frozen == i.freeze)
      || (i.WithdrawWithheldFromAccounts? && i.dest in i.sources && TRANSFER_FEE_AMOUNT !in a.types)
    case InvalidAccountData =>
      || (i.CloseAccount? && a.owner in {SYSTEM_PROGRAM, INCINERATOR} && i.dest != INCINERATOR)
      || (i.ToggleCpiGuard? && CPI_GUARD !in a.types) || (i.ToggleMemo? && MEMO_TRANSFER !in a.types)
    case _ => false
  }

  /** The extension of the mint an instruction works on. */
  function Needs(i: Instr): Option<ExtensionType> {
    match i
    case SetAuthority(_, kind, _, _, _) =>
      if kind.CloseMint? then Some(MINT_CLOSE_AUTHORITY)
      else if kind.TransferFeeConfig? || kind.WithheldWithdraw? then Some(TRANSFER_FEE_CONFIG)
      else if kind.PermanentDelegate? then Some(PERMANENT_DELEGATE)
      else L.PlainAuthorityType(kind)
    case CloseAccount(_, _, _, _) => Some(MINT_CLOSE_AUTHORITY)
    case UpdateDefaultAccountState(_, _, _, _) => Some(DEFAULT_ACCOUNT_STATE)
    case SetTransferFee(_, _, _, _, _) => Some(TRANSFER_FEE_CONFIG)
    case WithdrawWithheldFromMint(_, _, _, _) => Some(TRANSFER_FEE_CONFIG)
    case WithdrawWithheldFromAccounts(_, _, _, _, _) => Some(TRANSFER_FEE_CONFIG)
    case _ => None
  }

  /** What the error says about the mint. */
  predicate SaysOfMint(i: Instr, m: Mint, e: Error)
    requires OnTokens(i)
  {
    match e
    case FixedSupply => (i.MintTo? || (i.SetAuthority? && i.kind.MintTokens?)) && m.authority.None?
    case MintCannotFreeze =>
      (i.ToggleFreeze? || (i.SetAuthority? && i.kind.FreezeAccountAuthority?)) && m.freezeAuthority.None?
    case NoAuthorityExists => !i.SetAuthority? && !i.CloseAccount? && !i.ToggleFreeze? && InChargeOfMint(i, m) == {}
    case AuthorityTypeNotSupported =>
      && (i.SetAuthority? || i.CloseAccount?) && InChargeOfMint(i, m) == {}
      && (Needs(i).Some? ==> Needs(i).value in m.types)
    case ExtensionNotFound => Needs(i).Some? && Needs(i).value !in m.types
    case MintDecimalsMismatch => StatedDecimals(i).Some? && StatedDecimals(i).value.1 != m.decimals
    case MintHasSupply => i.CloseAccount? && m.supply > 0
    case InvalidArgument => i.SetAuthority? && i.newAuthority == Some(0)
    case Overflow => i.MintTo? && m.supply + i.amount > U64_MAX
    case _ => false
  }

  /** What the error says about the call, or about accounts taken together. */
  predicate SaysOfCall(s: State, ctx: Ctx, i: Instr, e: Error)
    requires OnTokens(i)
  {
    match e
    case OwnerMismatch => i.authority.key !in InCharge(s, i)
    case MissingRequiredSignature =>
      i.authority.key in InCharge(s, i) && !Agrees(s, i.authority.key, i.authority, i.signers)
    case UninitializedAccount => WrongKind(s, i)
    case InvalidAccountData => WrongKind(s, i) || (i.CloseAccount? && i.account == i.dest)
    case IncorrectProgramId => Get(s, TokenKey(i)).owner != TOKEN_PROGRAM || Get(s, MintKey(i)).owner != TOKEN_PROGRAM
    case CpiGuardSettingsLocked => i.ToggleCpiGuard? && ctx.inCpi
    case TransferFeeExceedsMaximum => i.SetTransferFee? && i.basisPoints > ONE_IN_BASIS_POINTS
    case Overflow =>
      || (i.CloseAccount? && Get(s, i.account).lamports + Get(s, i.dest).lamports > U64_MAX)
      || ((i.WithdrawWithheldFromMint? || i.WithdrawWithheldFromAccounts?)
          && HasMint(s, i.mint) && HasToken(s, i.dest)
          && Get(s, i.dest).data.token.amount + ToTake(s, i) > U64_MAX)
    case _ => false
  }

  /** The error says something true. */
  predicate Means(s: State, ctx: Ctx, i: Instr, e: Error)
    requires OnTokens(i)
  {
    || SaysOfCall(s, ctx, i, e)
    || (HasToken(s, TokenKey(i)) && SaysOfToken(ctx, i, Get(s, TokenKey(i)).data.token, e))
    || (HasMint(s, MintKey(i)) && SaysOfMint(i, Get(s, MintKey(i)).data.mint, e))
  }

  /** The one key in charge of the mint was not given, or did not sign. */
  lemma DeciderErrors(s: State, ctx: Ctx, i: Instr, p: Pubkey)
    requires Good(s) && OnTokens(i) && HasMint(s, Decided(i)) && InChargeOfMint(i, Get(s, Decided(i)).data.mint) == {p}
    ensures Multisigs.ValidateOwner(s, p, i.authority, i.signers).Err? ==>
              Means(s, ctx, i, Multisigs.ValidateOwner(s, p, i.authority, i.signers).error)
  {
    hide Multisigs.ValidateOwner, Good, ToTake, WrongKind, SaysOfToken, SaysOfMint, InChargeOfMint;
    OwnerErrors(s, p, i.authority, i.signers);
  }

  lemma CheckMintErrors(s: State, ctx: Ctx, i: Instr, a: Token)
    requires i.Approve? && Get(s, i.account).data == TokenData(a) && L.CheckMint(s, a, i.checked).Err?
    ensures Means(s, ctx, i, L.CheckMint(s, a, i.checked).error)
  {
    hide ToTake, InCharge;
  }

  lemma ApproveErrors(s: State, ctx: Ctx, i: Instr)
    requires Good(s) && i.Approve?
    requires L.Approve(s, ctx, i.account, i.checked, i.delegate, i.authority, i.signers, i.amount).Err?
    ensures Means(s, ctx, i,
                  L.Approve(s, ctx, i.account, i.checked, i.delegate, i.authority, i.signers, i.amount).error)
  {
    hide Multisigs.ValidateOwner, L.CheckMint, Good, ToTake, SaysOfMint;
    if HasToken(s, i.account) {
      var a := Get(s, i.account).data.token;
      OwnerErrors(s, a.owner, i.authority, i.signers);
      if L.CheckMint(s, a, i.checked).Err? { CheckMintErrors(s, ctx, i, a); }
    }
  }

  lemma RevokeErrors(s: State, ctx: Ctx, i: Instr)
    requires Good(s) && i.Revoke?
    requires L.Revoke(s, i.account, i.authority, i.signers).Err?
    ensures Means(s, ctx, i, L.Revoke(s, i.account, i.authority, i.signers).error)
  {
    hide Multisigs.ValidateOwner, Good, ToTake, SaysOfMint;
    if HasToken(s, i.account) {
      OwnerErrors(s, Get(s, i.account).data.token.owner, i.authority, i.signers);
      OwnerErrors(s, i.authority.key, i.authority, i.signers);
    }
  }

  lemma FreezeErrors(s: State, ctx: Ctx, i: Instr)
    requires Good(s) && i.ToggleFreeze?
    requires L.ToggleFreeze(s, i.account, i.mint, i.authority, i.signers, i.freeze).Err?
    ensures Means(s, ctx, i, L.ToggleFreeze(s, i.account, i.mint, i.authority, i.signers, i.freeze).error)
  {
    hide Multisigs.ValidateOwner, Good, ToTake;
    if HasMint(s, i.mint) && Get(s, i.mint).data.mint.freezeAuthority.Some? {
      OwnerErrors(s, Get(s, i.mint).data.mint.freezeAuthority.value, i.authority, i.signers);
    }
  }

  lemma GuardErrors(s: State, ctx: Ctx, i: Instr)
    requires Good(s) && i.ToggleCpiGuard?
    requires L.ToggleCpiGuard(s, ctx, i.account, i.authority, i.signers, i.enable).Err?
    ensures Means(s, ctx, i, L.ToggleCpiGuard(s, ctx, i.account, i.authority, i.signers, i.enable).error)
  {
    hide Multisigs.ValidateOwner, Good, ToTake, SumTlvLen, SaysOfMint;
    if HasToken(s, i.account) { OwnerErrors(s, Get(s, i.account).data.token.owner, i.authority, i.signers); }
  }

  lemma MemoErrors(s: State, ctx: Ctx, i: Instr)
    requires Good(s) && i.ToggleMemo?
    requires L.ToggleMemo(s, i.account, i.authority, i.signers, i.enable).Err?
    ensures Means(s, ctx, i, L.ToggleMemo(s, i.account, i.authority, i.signers, i.enable).error)
  {
    hide Multisigs.ValidateOwner, Good, ToTake, SumTlvLen, SaysOfMint;
    if HasToken(s, i.account) { OwnerErrors(s, Get(s, i.account).data.token.owner, i.authority, i.signers); }
  }

  lemma DefaultStateErrors(s: State, ctx: Ctx, i: Instr)
    requires Good(s) && i.UpdateDefaultAccountState?
    requires L.UpdateDefaultAccountState(s, i.mint, i.frozen, i.authority, i.signers).Err?
    ensures Means(s, ctx, i, L.UpdateDefaultAccountState(s, i.mint, i.frozen, i.authority, i.signers).error)
  {
    hide Multisigs.ValidateOwner, Good, ToTake, SaysOfToken;
    if HasMint(s, i.mint) && Get(s, i.mint).data.mint.freezeAuthority.Some? {
      OwnerErrors(s, Get(s, i.mint).data.mint.freezeAuthority.value, i.authority, i.signers);
    }
  }

  lemma FeeEarlyCall(s: State, ctx: Ctx, i: Instr)
    requires i.SetTransferFee?
    ensures !HasMint(s, i.mint) ==> Means(s, ctx, i, UninitializedAccount) && Means(s, ctx, i, InvalidAccountData)
    ensures i.basisPoints > ONE_IN_BASIS_POINTS ==> Means(s, ctx, i, TransferFeeExceedsMaximum)
  {
    hide ToTake, InCharge, SaysOfToken, SaysOfMint;
  }

  lemma FeeEarlyMint(s: State, ctx: Ctx, i: Instr)
    requires i.SetTransferFee? && HasMint(s, i.mint)
    ensures var m := Get(s, i.mint).data.mint;
            && (TRANSFER_FEE_CONFIG !in m.types ==> Means(s, ctx, i, ExtensionNotFound))
            && (m.ext.fee.configAuthority.None? ==> Means(s, ctx, i, NoAuthorityExists))
  {
    hide SaysOfCall, SaysOfToken;
  }

  lemma FeeErrors(s: State, ctx: Ctx, i: Instr)
    requires Good(s) && i.SetTransferFee?
    requires L.SetTransferFee(s, ctx, i.mint, i.authority, i.signers, i.basisPoints, i.maximumFee).Err?
    ensures Means(s, ctx, i,
                  L.SetTransferFee(s, ctx, i.mint, i.authority, i.signers, i.basisPoints, i.maximumFee).error)
  {
    hide Multisigs.ValidateOwner, Good, Means;
    FeeEarlyCall(s, ctx, i);
    if HasMint(s, i.mint) { FeeEarlyMint(s, ctx, i); }
    if HasMint(s, i.mint) && AuthorityAt(Get(s, i.mint).data.mint, AuthorityType.TransferFeeConfig).Some? {
      DeciderErrors(s, ctx, i, Get(s, i.mint).data.mint.ext.fee.configAuthority.value);
    }
  }

  lemma MintToOverflow(s: State, ctx: Ctx, i: Instr)
    requires Inv(s) && i.MintTo? && Process(s, ctx, i) == Err(Overflow)
    ensures HasMint(s, i.mint) && Get(s, i.mint).data.mint.supply + i.amount > U64_MAX
  {
    hide Multisigs.Authorizes, Inv;
    if MayMint(s, i) { MintToOverflowsIff(s, ctx, i); }
  }

  lemma MintToErrors(s: State, ctx: Ctx, i: Instr)
    requires Good(s) && i.MintTo?
    requires L.MintTo(s, i.mint, i.dest, i.expectedDecimals, i.authority, i.signers, i.amount).Err?
    requires L.MintTo(s, i.mint, i.dest, i.expectedDecimals, i.authority, i.signers, i.amount) == Err(Overflow) ==>
               HasMint(s, i.mint) && Get(s, i.mint).data.mint.supply + i.amount > U64_MAX
    ensures Means(s, ctx, i,
              L.MintTo(s, i.mint, i.dest, i.expectedDecimals, i.authority, i.signers, i.amount).error)
  {
    hide Multisigs.ValidateOwner, Good, Means;
    SupplyEarlyCall(s, ctx, i);
    if HasToken(s, i.dest) { SupplyEarlyToken(s, ctx, i); }
    if HasMint(s, i.mint) {
      SupplyEarlyMint(s, ctx, i);
      if Get(s, i.mint).data.mint.authority.Some? {
        DeciderErrors(s, ctx, i, Get(s, i.mint).data.mint.authority.value);
      }
    }
  }

  lemma BurnDebitErrors(s: State, ctx: Ctx, i: Instr)
    requires Good(s) && i.Burn? && HasToken(s, i.account) && HasMint(s, i.mint)
    requires L.AuthorizeDebit(s, ctx, Get(s, i.account).data.token, PermanentDelegateOf(Get(s, i.mint).data.mint),
                              i.authority, i.signers, i.amount, true, CpiGuardBurnBlocked).Err?
    ensures Means(s, ctx, i,
              L.AuthorizeDebit(s, ctx, Get(s, i.account).data.token, PermanentDelegateOf(Get(s, i.mint).data.mint),
                               i.authority, i.signers, i.amount, true, CpiGuardBurnBlocked).error)
  {
    hide L.AuthorizeDebit, Good, ToTake, WrongKind, SaysOfMint, PermanentDelegateOf;
    DebitErrors(s, ctx, Get(s, i.account).data.token, PermanentDelegateOf(Get(s, i.mint).data.mint), i.authority,
                i.signers, i.amount, true, CpiGuardBurnBlocked);
  }

  // The checks of a burn or a minting besides the authority.

  lemma SupplyEarlyToken(s: State, ctx: Ctx, i: Instr)
    requires (i.Burn? || i.MintTo?) && HasToken(s, TokenKey(i))
    ensures var a := Get(s, TokenKey(i)).data.token;
            && (a.frozen ==> Means(s, ctx, i, AccountFrozen))
            && (a.native.Some? ==> Means(s, ctx, i, NativeNotSupported))
            && (i.Burn? && i.amount > a.amount ==> Means(s, ctx, i, InsufficientFunds))
            && (i.mint != a.mint ==> Means(s, ctx, i, MintMismatch))
            && (i.MintTo? && IMMUTABLE_OWNER !in a.types ==>
                  Means(s, ctx, i, NonTransferableNeedsImmutableOwnership))
  {
    hide SaysOfCall, SaysOfMint;
  }

  lemma SupplyEarlyMint(s: State, ctx: Ctx, i: Instr)
    requires (i.Burn? || i.MintTo?) && HasMint(s, i.mint)
    ensures var m := Get(s, i.mint).data.mint;
            && (i.expectedDecimals.Some? && i.expectedDecimals.value != m.decimals ==>
                  Means(s, ctx, i, MintDecimalsMismatch))
            && (i.MintTo? && m.authority.None? ==> Means(s, ctx, i, FixedSupply))
            && (i.MintTo? && m.supply + i.amount > U64_MAX ==> Means(s, ctx, i, Overflow))
  {
    hide SaysOfCall, SaysOfToken;
  }

  lemma SupplyEarlyCall(s: State, ctx: Ctx, i: Instr)
    requires i.Burn? || i.MintTo?
    ensures !HasToken(s, TokenKey(i)) || !HasMint(s, i.mint) ==>
              Means(s, ctx, i, UninitializedAccount) && Means(s, ctx, i, InvalidAccountData)
    ensures Get(s, TokenKey(i)).owner != TOKEN_PROGRAM || Get(s, i.mint).owner != TOKEN_PROGRAM ==>
              Means(s, ctx, i, IncorrectProgramId)
  {
    hide ToTake, InCharge, SaysOfToken, SaysOfMint;
  }

  lemma BurnErrors(s: State, ctx: Ctx, i: Instr)
    requires Good(s) && i.Burn?
    requires L.Burn(s, ctx, i.account, i.mint, i.expectedDecimals, i.authority, i.signers, i.amount).Err?
    requires L.Burn(s, ctx, i.account, i.mint, i.expectedDecimals, i.authority, i.signers, i.amount) != Err(Overflow)
    ensures Means(s, ctx, i,
              L.Burn(s, ctx, i.account, i.mint, i.expectedDecimals, i.authority, i.signers, i.amount).error)
  {
    hide L.AuthorizeDebit, Good, Means;
    SupplyEarlyCall(s, ctx, i);
    if HasToken(s, i.account) { SupplyEarlyToken(s, ctx, i); }
    if HasMint(s, i.mint) { SupplyEarlyMint(s, ctx, i); }
    if HasToken(s, i.account) && HasMint(s, i.mint) {
      var a, permanent := Get(s, i.account).data.token, PermanentDelegateOf(Get(s, i.mint).data.mint);
      if L.AuthorizeDebit(s, ctx, a, permanent, i.authority, i.signers, i.amount, true, CpiGuardBurnBlocked).Err? {
        BurnDebitErrors(s, ctx, i);
      }
    }
  }

  lemma CloseTokenErrors(s: State, ctx: Ctx, i: Instr, a: Token)
    requires Good(s) && i.CloseAccount? && Get(s, i.account).data == TokenData(a)
    requires L.CheckCloseToken(s, ctx, a, i.dest, i.authority, i.signers).Err?
    ensures Means(s, ctx, i, L.CheckCloseToken(s, ctx, a, i.dest, i.authority, i.signers).error)
  {
    hide Multisigs.ValidateOwner, Good, ToTake, WrongKind, SaysOfMint;
    OwnerErrors(s, CloserOf(a), i.authority, i.signers);
  }

  lemma CloseMintErrors(s: State, ctx: Ctx, i: Instr, m: Mint)
    requires Good(s) && i.CloseAccount? && Get(s, i.account).data == MintData(m)
    requires L.CheckCloseMint(s, m, i.authority, i.signers).Err?
    ensures Means(s, ctx, i, L.CheckCloseMint(s, m, i.authority, i.signers).error)
  {
    hide Multisigs.ValidateOwner, Good, ToTake, WrongKind, SaysOfToken;
    if m.ext.closeAuthority.Some? { OwnerErrors(s, m.ext.closeAuthority.value, i.authority, i.signers); }
  }

  lemma CloseErrors(s: State, ctx: Ctx, i: Instr)
    requires Good(s) && i.CloseAccount?
    requires L.CloseAccount(s, ctx, i.account, i.dest, i.authority, i.signers).Err?
    ensures Means(s, ctx, i, L.CloseAccount(s, ctx, i.account, i.dest, i.authority, i.signers).error)
  {
    hide L.CheckCloseToken, L.CheckCloseMint, Good, ToTake, SaysOfToken, SaysOfMint, InCharge;
    match Get(s, i.account).data
    case TokenData(a) =>
      if L.CheckCloseToken(s, ctx, a, i.dest, i.authority, i.signers).Err? { CloseTokenErrors(s, ctx, i, a); }
    case MintData(m) =>
      if L.CheckCloseMint(s, m, i.authority, i.signers).Err? { CloseMintErrors(s, ctx, i, m); }
    case _ =>
  }

  lemma SetTokenAuthorityErrors(s: State, ctx: Ctx, i: Instr, a: Token)
    requires Good(s) && i.SetAuthority? && Get(s, i.account).data == TokenData(a)
    requires L.SetTokenAuthority(s, ctx, a, i.kind, i.newAuthority, i.authority, i.signers).Err?
    ensures Means(s, ctx, i, L.SetTokenAuthority(s, ctx, a, i.kind, i.newAuthority, i.authority, i.signers).error)
  {
    hide Multisigs.ValidateOwner, Good, ToTake, SaysOfMint, WrongKind;
    OwnerErrors(s, a.owner, i.authority, i.signers);
    OwnerErrors(s, CloserOf(a), i.authority, i.signers);
  }

  lemma SetOwnFieldErrors(s: State, m: Mint, i: Instr)
    requires Good(s) && i.SetAuthority?
    requires || i.kind.MintTokens? || i.kind.FreezeAccountAuthority? || i.kind.CloseMint? || i.kind.TransferFeeConfig?
             || i.kind.WithheldWithdraw? || i.kind.PermanentDelegate?
    requires L.SetMintAuthority(s, m, i.kind, i.newAuthority, i.authority, i.signers).Err?
    ensures var e := L.SetMintAuthority(s, m, i.kind, i.newAuthority, i.authority, i.signers).error;
            || SaysOfMint(i, m, e)
            || (e == OwnerMismatch && i.authority.key !in InChargeOfMint(i, m))
            || (e == MissingRequiredSignature && i.authority.key in InChargeOfMint(i, m)
                && !Agrees(s, i.authority.key, i.authority, i.signers))
  {
    hide Multisigs.ValidateOwner, Good, L.PlainAuthorityType;
    if AuthorityAt(m, i.kind).Some? { OwnerErrors(s, AuthorityAt(m, i.kind).value, i.authority, i.signers); }
  }

  lemma SetExtensionErrors(s: State, m: Mint, i: Instr)
    requires Good(s) && i.SetAuthority? && !i.kind.MintTokens? && !i.kind.FreezeAccountAuthority? && !i.kind.CloseMint?
    requires !i.kind.TransferFeeConfig? && !i.kind.WithheldWithdraw? && !i.kind.PermanentDelegate?
    requires L.SetMintAuthority(s, m, i.kind, i.newAuthority, i.authority, i.signers).Err?
    ensures var e := L.SetMintAuthority(s, m, i.kind, i.newAuthority, i.authority, i.signers).error;
            || SaysOfMint(i, m, e)
            || (e == OwnerMismatch && i.authority.key !in InChargeOfMint(i, m))
            || (e == MissingRequiredSignature && i.authority.key in InChargeOfMint(i, m)
                && !Agrees(s, i.authority.key, i.authority, i.signers))
  {
    hide Multisigs.ValidateOwner, Good, L.PlainAuthorityType;
    if AuthorityAt(m, i.kind).Some? { OwnerErrors(s, AuthorityAt(m, i.kind).value, i.authority, i.signers); }
  }

  lemma SetMintAuthorityErrors(s: State, m: Mint, i: Instr)
    requires Good(s) && i.SetAuthority?
    requires L.SetMintAuthority(s, m, i.kind, i.newAuthority, i.authority, i.signers).Err?
    ensures var e := L.SetMintAuthority(s, m, i.kind, i.newAuthority, i.authority, i.signers).error;
            || SaysOfMint(i, m, e)
            || (e == OwnerMismatch && i.authority.key !in InChargeOfMint(i, m))
            || (e == MissingRequiredSignature && i.authority.key in InChargeOfMint(i, m)
                && !Agrees(s, i.authority.key, i.authority, i.signers))
  {
    hide Multisigs.ValidateOwner, Good, L.SetMintAuthority, SaysOfMint, InChargeOfMint;
    match i.kind
    case MintTokens | FreezeAccountAuthority | CloseMint | TransferFeeConfig | WithheldWithdraw | PermanentDelegate =>
      SetOwnFieldErrors(s, m, i);
    case _ =>
      SetExtensionErrors(s, m, i);
  }

  lemma SetAuthorityErrors(s: State, ctx: Ctx, i: Instr)
    requires Good(s) && i.SetAuthority? && Process(s, ctx, i).Err?
    ensures Means(s, ctx, i, Process(s, ctx, i).error)
  {
    hide Multisigs.ValidateOwner, Good, ToTake, L.SetMintAuthority, L.SetTokenAuthority, SaysOfMint, SaysOfToken,
         InChargeOfMint;
    match Get(s, i.account).data
    case TokenData(a) => SetTokenAuthorityErrors(s, ctx, i, a);
    case MintData(m) => SetMintAuthorityErrors(s, m, i);
    case _ =>
  }

  // The checks of a withdrawal besides the authority.

  lemma CheckEarlyMint(s: State, ctx: Ctx, i: Instr)
    requires (i.WithdrawWithheldFromMint? || i.WithdrawWithheldFromAccounts?) && HasMint(s, i.mint)
    requires AuthorityAt(Get(s, i.mint).data.mint, AuthorityType.WithheldWithdraw).None?
    ensures Means(s, ctx, i, NoAuthorityExists)
    ensures TRANSFER_FEE_CONFIG !in Get(s, i.mint).data.mint.types ==> Means(s, ctx, i, ExtensionNotFound)
  {
    hide SaysOfCall, SaysOfToken;
  }

  lemma CheckEarlyCall(s: State, ctx: Ctx, i: Instr)
    requires i.WithdrawWithheldFromMint? || i.WithdrawWithheldFromAccounts?
    ensures !HasToken(s, i.dest) || !HasMint(s, i.mint) ==>
              Means(s, ctx, i, UninitializedAccount) && Means(s, ctx, i, InvalidAccountData)
    ensures Get(s, i.mint).owner != TOKEN_PROGRAM ==> Means(s, ctx, i, IncorrectProgramId)
  {
    hide ToTake, InCharge, SaysOfToken, SaysOfMint;
  }

  lemma CheckEarlyToken(s: State, ctx: Ctx, i: Instr)
    requires (i.WithdrawWithheldFromMint? || i.WithdrawWithheldFromAccounts?) && HasToken(s, i.dest)
    ensures Get(s, i.dest).data.token.frozen ==> Means(s, ctx, i, AccountFrozen)
    ensures Get(s, i.dest).data.token.mint != i.mint ==> Means(s, ctx, i, MintMismatch)
  {
    hide SaysOfCall, SaysOfMint;
  }

  lemma CheckErrors(s: State, ctx: Ctx, i: Instr)
    requires Good(s) && (i.WithdrawWithheldFromMint? || i.WithdrawWithheldFromAccounts?)
    requires L.CheckWithdrawal(s, i.mint, i.dest, i.authority, i.signers).Err?
    ensures Means(s, ctx, i, L.CheckWithdrawal(s, i.mint, i.dest, i.authority, i.signers).error)
  {
    hide Multisigs.ValidateOwner, Good, Means;
    CheckEarlyCall(s, ctx, i);
    if HasMint(s, i.mint) && AuthorityAt(Get(s, i.mint).data.mint, AuthorityType.WithheldWithdraw).None? {
      CheckEarlyMint(s, ctx, i);
    }
    if HasToken(s, i.dest) { CheckEarlyToken(s, ctx, i); }
    if HasMint(s, i.mint) && Get(s, i.mint).data.mint.ext.fee.withdrawAuthority.Some?
       && TRANSFER_FEE_CONFIG in Get(s, i.mint).data.mint.types {
      DeciderErrors(s, ctx, i, Get(s, i.mint).data.mint.ext.fee.withdrawAuthority.value);
    }
  }

  lemma {:induction false} WithdrawAllErrors(s: State, mint: Pubkey, dest: Pubkey, ks: seq<Pubkey>)
    requires HasToken(s, dest) && L.WithdrawAll(s, mint, dest, ks).Err?
    ensures var e, d := L.WithdrawAll(s, mint, dest, ks).error, Get(s, dest).data.token;
            || (e == Overflow && d.amount + SumOnce(ks, Withdrawal(s, mint, dest)) > U64_MAX)
            || (e == InvalidState && dest in ks && TRANSFER_FEE_AMOUNT !in d.types)
  {
    hide L.WithdrawOne, Withdrawal, Withdrawn;
    var n := |ks| - 1;
    assert ks == ks[..n] + [ks[n]];
    if L.WithdrawAll(s, mint, dest, ks[..n]).Err? {
      WithdrawAllErrors(s, mint, dest, ks[..n]);
    } else {
      var before := L.WithdrawAll(s, mint, dest, ks[..n]).value;
      WithdrawMeans(s, mint, dest, ks[..n]);
      WithdrawnOnce(s, before, mint, dest, ks[..n], SumOnce(ks[..n], Withdrawal(s, mint, dest)), ks[n]);
      WithdrawOneErrors(before, mint, dest, ks[n]);
    }
  }

  lemma WithdrawOneErrors(s: State, mint: Pubkey, dest: Pubkey, k: Pubkey)
    requires HasToken(s, dest) && L.WithdrawOne(s, mint, dest, k).Err?
    ensures var e, d := L.WithdrawOne(s, mint, dest, k).error, Get(s, dest).data.token;
            || (e == Overflow && d.amount + Withdrawal(s, mint, dest)(k) > U64_MAX)
            || (e == InvalidState && k == dest && TRANSFER_FEE_AMOUNT !in d.types)
  {
  }

  lemma WithdrawMintErrors(s: State, ctx: Ctx, i: Instr)
    requires Good(s) && i.WithdrawWithheldFromMint?
    requires L.WithdrawWithheldFromMint(s, i.mint, i.dest, i.authority, i.signers).Err?
    ensures Means(s, ctx, i, L.WithdrawWithheldFromMint(s, i.mint, i.dest, i.authority, i.signers).error)
  {
    hide L.CheckWithdrawal, Good, InCharge, WrongKind, SaysOfMint, SaysOfToken;
    if L.CheckWithdrawal(s, i.mint, i.dest, i.authority, i.signers).Err? {
      CheckErrors(s, ctx, i);
    } else {
      WithdrawalChecked(s, i.mint, i.dest, i.authority, i.signers);
    }
  }

  lemma WithdrawAccountsErrors(s: State, ctx: Ctx, i: Instr)
    requires Good(s) && i.WithdrawWithheldFromAccounts?
    requires L.WithdrawWithheldFromAccounts(s, i.mint, i.dest, i.authority, i.signers, i.sources).Err?
    ensures Means(s, ctx, i,
              L.WithdrawWithheldFromAccounts(s, i.mint, i.dest, i.authority, i.signers, i.sources).error)
  {
    hide L.CheckWithdrawal, L.WithdrawAll, Good, SumOnce, InCharge, WrongKind, SaysOfMint;
    if L.CheckWithdrawal(s, i.mint, i.dest, i.authority, i.signers).Err? {
      CheckErrors(s, ctx, i);
    } else {
      WithdrawalChecked(s, i.mint, i.dest, i.authority, i.signers);
      WithdrawAllErrors(s, i.mint, i.dest, i.sources);
    }
  }

  /**
   Errors tell the truth: whatever error an instruction that somebody must agree to returns, in a reachable state, what
   it says of the accounts, the mint or the call holds.
   */
  lemma ErrorsTellTheTruth(s: State, ctx: Ctx, i: Instr)
    requires Inv(s) && OnTokens(i) && Process(s, ctx, i).Err?
    ensures Means(s, ctx, i, Process(s, ctx, i).error)
  {
    hide Means, Inv, L.Approve, L.Revoke, L.SetAuthority, L.MintTo, L.Burn, L.CloseAccount, L.ToggleFreeze,
         L.UpdateDefaultAccountState, L.ToggleCpiGuard, L.ToggleMemo, L.SetTransferFee, L.WithdrawWithheldFromMint,
         L.WithdrawWithheldFromAccounts;
    InvGood(s);
    match i
    case Approve(_, _, _, _, _, _) => ApproveErrors(s, ctx, i);
    case Revoke(_, _, _) => RevokeErrors(s, ctx, i);
    case SetAuthority(_, _, _, _, _) => SetAuthorityErrors(s, ctx, i);
    case MintTo(_, _, _, _, _, _) =>
      if Process(s, ctx, i) == Err(Overflow) { MintToOverflow(s, ctx, i); }
      MintToErrors(s, ctx, i);
    case Burn(_, _, _, _, _, _) =>
      BurnNeverOverflows(s, ctx, i);
      BurnErrors(s, ctx, i);
    case CloseAccount(_, _, _, _) => CloseErrors(s, ctx, i);
    case ToggleFreeze(_, _, _, _, _) => FreezeErrors(s, ctx, i);
    case UpdateDefaultAccountState(_, _, _, _) => DefaultStateErrors(s, ctx, i);
    case ToggleCpiGuard(_, _, _, _) => GuardErrors(s, ctx, i);
    case ToggleMemo(_, _, _, _) => MemoErrors(s, ctx, i);
    case SetTransferFee(_, _, _, _, _) => FeeErrors(s, ctx, i);
    case WithdrawWithheldFromMint(_, _, _, _) => WithdrawMintErrors(s, ctx, i);
    case WithdrawWithheldFromAccounts(_, _, _, _, _) => WithdrawAccountsErrors(s, ctx, i);
  }

  // ------------------------------------------------------------------ setup, lamports and data length

  /** What an instruction that initialises an account means by its error. */
  predicate SetupMeans(s: State, ctx: Ctx, i: Instr, e: Error)
    requires Initializes(i)
  {
    var x := Get(s, Target(i).value);
    var base := if i.InitializeAccount? || i.InitializeImmutableOwner? then AccountBase else MintBase;
    match e
    case NotRentExempt => x.lamports < ctx.rent(x.dataLen)
    case AlreadyInUse => !x.data.Blank?
    case ExtensionBaseMismatch =>
      x.data.Blank? && x.data.types != [] && AccountTypeOf(x.data.types[0]) != base.Type()
    case InvalidAccountData =>
      || !IsEmpty(x, base)
      || (ExtensionOf(i).Some? && !Room(x.data.types + [ExtensionOf(i).value], x.dataLen))
      || (i.InitializeImmutableOwner? && !Room(x.data.types + [IMMUTABLE_OWNER], x.dataLen))
      || (i.InitializeMint? && TryCalculateAccountLen(MintBase, x.data.types) != Ok(x.dataLen))
      || (i.InitializeAccount? && HasMint(s, i.mint)
          && var required := RequiredInitAccountExtensions(Get(s, i.mint).data.mint.types);
             || !Room(WithAll(x.data.types, required), x.dataLen)
             || TryCalculateAccountLen(AccountBase, required).Err?
             || TryCalculateAccountLen(AccountBase, required).value > x.dataLen)
    case InvalidExtensionCombination =>
      i.InitializeMint? && x.data.Blank?
      && !(CONFIDENTIAL_TRANSFER_FEE_CONFIG in x.data.types <==>
             TRANSFER_FEE_CONFIG in x.data.types && CONFIDENTIAL_TRANSFER_MINT in x.data.types)
    case MintCannotFreeze => i.InitializeMint? && i.freezeAuthority.None?
    case InvalidMint => i.InitializeAccount? && !HasMint(s, i.mint)
    case IncorrectProgramId =>
      || (i.InitializeAccount? && Get(s, i.mint).owner != TOKEN_PROGRAM)
      || (i.InitializeAuthorityExtension? && i.target == Some(TOKEN_PROGRAM))
    case TransferFeeExceedsMaximum => i.InitializeTransferFeeConfig? && i.basisPoints > ONE_IN_BASIS_POINTS
    case InvalidInstruction => i.InitializeAuthorityExtension? && !LegalValues(i)
    case InvalidArgument =>
      || !LegalValues(i)
      || (i.InitializeMint? && x.data.Blank? && !AllSized(x.data.types))
      || (i.InitializeMultisig? && (x.dataLen != MULTISIG_LEN || x.data != ZEROED))
    case InvalidNumberOfProvidedSigners => i.InitializeMultisig? && !(1 <= |i.keys| <= MAX_SIGNERS)
    case InvalidNumberOfRequiredSigners => i.InitializeMultisig? && !(1 <= i.m <= MAX_SIGNERS)
    case Panic => i.InitializeMultisig? && |i.keys| > MAX_SIGNERS
    case _ => false
  }

  lemma EmptyErrors(x: Info, base: Base)
    requires UnpackUninitialized(x, base).Err?
    ensures !IsEmpty(x, base)
    ensures match UnpackUninitialized(x, base).error
            case AlreadyInUse => !x.data.Blank?
            case ExtensionBaseMismatch =>
              x.data.Blank? && x.data.types != [] && AccountTypeOf(x.data.types[0]) != base.Type()
            case InvalidAccountData => true
            case _ => false
  {
  }

  lemma RoomErrors(dataLen: nat, types: seq<ExtensionType>, t: ExtensionType)
    ensures match InitExtension(dataLen, types, t)
            case Ok(_) => true
            case Err(e) => e == InvalidAccountData && !Room(types + [t], dataLen)
  {
    ExtensionFits(dataLen, types, t);
  }

  lemma {:induction false} AllRoomErrors(dataLen: nat, types: seq<ExtensionType>, ts: seq<ExtensionType>)
    requires InitExtensions(dataLen, types, ts).Err?
    ensures InitExtensions(dataLen, types, ts) == Err(InvalidAccountData)
    ensures !Room(WithAll(types, ts), dataLen)
  {
    hide InitExtension;
    var n := |ts| - 1;
    ExtensionsFit(dataLen, types, ts);
    if InitExtensions(dataLen, types, ts[..n]).Err? {
      AllRoomErrors(dataLen, types, ts[..n]);
    } else {
      RoomErrors(dataLen, InitExtensions(dataLen, types, ts[..n]).value, ts[n]);
    }
  }

  lemma NewMintErrors(s: State, ctx: Ctx, i: Instr)
    requires i.InitializeMint? && Process(s, ctx, i).Err?
    ensures SetupMeans(s, ctx, i, Process(s, ctx, i).error)
  {
    hide UnpackUninitialized, IsEmpty, Room, Dedupe, SumTlvLen, RequiredInitAccountExtensions, WithAll;
    var x := Get(s, i.mint);
    EmptyIff(x, MintBase);
    if UnpackUninitialized(x, MintBase).Err? { EmptyErrors(x, MintBase); }
  }

  lemma NewAccountErrors(s: State, ctx: Ctx, i: Instr)
    requires i.InitializeAccount? && Process(s, ctx, i).Err?
    ensures SetupMeans(s, ctx, i, Process(s, ctx, i).error)
  {
    hide UnpackUninitialized, IsEmpty, Room, TryCalculateAccountLen, InitExtensions, RequiredInitAccountExtensions,
         WithAll;
    var x := Get(s, i.account);
    EmptyIff(x, AccountBase);
    if UnpackUninitialized(x, AccountBase).Err? {
      EmptyErrors(x, AccountBase);
    } else if HasMint(s, i.mint) {
      var required := RequiredInitAccountExtensions(Get(s, i.mint).data.mint.types);
      AllSizedRequired(Get(s, i.mint).data.mint.types);
      if InitExtensions(x.dataLen, x.data.types, required).Err? { AllRoomErrors(x.dataLen, x.data.types, required); }
    }
  }

  lemma AllSizedRequired(types: seq<ExtensionType>)
    ensures TryCalculateAccountLen(AccountBase, RequiredInitAccountExtensions(types)).Ok?
  {
  }

  lemma NewMultisigErrors(s: State, ctx: Ctx, i: Instr)
    requires i.InitializeMultisig? && Process(s, ctx, i).Err?
    ensures SetupMeans(s, ctx, i, Process(s, ctx, i).error)
  {
    hide IsEmpty, Room, TryCalculateAccountLen, RequiredInitAccountExtensions, WithAll;
  }

  lemma OwnerPinErrors(s: State, ctx: Ctx, i: Instr)
    requires i.InitializeImmutableOwner? && Process(s, ctx, i).Err?
    ensures SetupMeans(s, ctx, i, Process(s, ctx, i).error)
  {
    hide UnpackUninitialized, IsEmpty, Room, InitExtension, TryCalculateAccountLen, RequiredInitAccountExtensions,
         WithAll;
    var x := Get(s, i.account);
    EmptyIff(x, AccountBase);
    if UnpackUninitialized(x, AccountBase).Err? {
      EmptyErrors(x, AccountBase);
    } else {
      RoomErrors(x.dataLen, x.data.types, IMMUTABLE_OWNER);
    }
  }

  lemma StoreErrors(s: State, k: Pubkey, t: ExtensionType, ext: MintExt)
    requires L.InitMintExtension(s, k, t, ext).Err?
    ensures var x, e := Get(s, k), L.InitMintExtension(s, k, t, ext).error;
            || (e == AlreadyInUse && !x.data.Blank?)
            || (e == ExtensionBaseMismatch && x.data.Blank? && x.data.types != []
                && AccountTypeOf(x.data.types[0]) != AccountType.Mint)
            || (e == InvalidAccountData
                && (!IsEmpty(x, MintBase) || (x.data.Blank? && !Room(x.data.types + [t], x.dataLen))))
  {
    hide UnpackUninitialized, IsEmpty, Room, InitExtension;
    var x := Get(s, k);
    EmptyIff(x, MintBase);
    if UnpackUninitialized(x, MintBase).Err? {
      EmptyErrors(x, MintBase);
    } else {
      RoomErrors(x.dataLen, x.data.types, t);
    }
  }

  lemma ExtensionErrors(s: State, ctx: Ctx, i: Instr)
    requires ExtensionOf(i).Some? && Process(s, ctx, i).Err?
    ensures SetupMeans(s, ctx, i, Process(s, ctx, i).error)
  {
    hide SetupMeans, L.InitMintExtension, L.BlankExt;
    var (t, ext) := Stores(s, ctx, i);
    if L.InitMintExtension(s, i.mint, t, ext).Err? { StoreMeans(s, ctx, i, t, ext); }
    ValuesMean(s, ctx, i);
  }

  lemma StoreMeans(s: State, ctx: Ctx, i: Instr, t: ExtensionType, ext: MintExt)
    requires ExtensionOf(i) == Some(t) && L.InitMintExtension(s, i.mint, t, ext).Err?
    ensures SetupMeans(s, ctx, i, L.InitMintExtension(s, i.mint, t, ext).error)
  {
    hide L.InitMintExtension, IsEmpty, Room, TryCalculateAccountLen, RequiredInitAccountExtensions, WithAll;
    StoreErrors(s, i.mint, t, ext);
  }

  lemma ValuesMean(s: State, ctx: Ctx, i: Instr)
    requires ExtensionOf(i).Some?
    ensures !LegalValues(i) ==>
              && SetupMeans(s, ctx, i, InvalidArgument)
              && (i.InitializeTransferFeeConfig? && i.basisPoints > ONE_IN_BASIS_POINTS ==>
                    SetupMeans(s, ctx, i, TransferFeeExceedsMaximum))
              && (i.InitializeAuthorityExtension? ==> SetupMeans(s, ctx, i, InvalidInstruction))
              && (i.InitializeAuthorityExtension? && i.target == Some(TOKEN_PROGRAM) ==>
                    SetupMeans(s, ctx, i, IncorrectProgramId))
  {
    hide IsEmpty, Room, TryCalculateAccountLen, RequiredInitAccountExtensions, WithAll;
  }

  /** The same for the instructions that initialise an account. */
  lemma SetupErrorsTellTheTruth(s: State, ctx: Ctx, i: Instr)
    requires Initializes(i) && Process(s, ctx, i).Err?
    ensures SetupMeans(s, ctx, i, Process(s, ctx, i).error)
  {
    hide Process, SetupMeans;
    match i
    case InitializeMint(_, _, _, _) => NewMintErrors(s, ctx, i);
    case InitializeAccount(_, _, _) => NewAccountErrors(s, ctx, i);
    case InitializeMultisig(_, _, _) => NewMultisigErrors(s, ctx, i);
    case InitializeImmutableOwner(_) => OwnerPinErrors(s, ctx, i);
    case _ => ExtensionErrors(s, ctx, i);
  }

  /** The payer cannot pay: what the error of the system program's transfer means. */
  predicate PayMeans(s: State, payer: Signer, dest: Pubkey, lamports: nat, e: Error) {
    match e
    case MissingRequiredSignature => !payer.isSigner
    case InvalidArgument => Get(s, payer.key).owner != SYSTEM_PROGRAM || Get(s, payer.key).dataLen != 0
    case InsufficientLamports => Get(s, payer.key).lamports < lamports
    case Overflow => Get(s, dest).lamports + lamports > U64_MAX
    case _ => false
  }

  lemma PayErrors(s: State, payer: Signer, dest: Pubkey, lamports: nat)
    requires L.SystemTransfer(s, payer, dest, lamports).Err?
    ensures PayMeans(s, payer, dest, lamports, L.SystemTransfer(s, payer, dest, lamports).error)
  {
  }

  predicate MovesLamports(i: Instr) {
    i.SyncNative? || i.WithdrawExcessLamports? || i.Reallocate? || i.CreateNativeMint? || i.HarvestWithheldToMint?
  }

  /** What the remaining instructions mean by their errors. */
  ghost predicate LamportsMean(s: State, ctx: Ctx, i: Instr, e: Error)
    requires MovesLamports(i)
  {
    match i
    case SyncNative(k) =>
      || (e == IncorrectProgramId && Get(s, k).owner != TOKEN_PROGRAM)
      || ((e == UninitializedAccount || e == InvalidAccountData) && WrongKind(s, i))
      || (e == NonNativeNotSupported && HasToken(s, k) && Get(s, k).data.token.native.None?)
    case HarvestWithheldToMint(m, _) =>
      || ((e == UninitializedAccount || e == InvalidAccountData) && WrongKind(s, i))
      || (e == ExtensionNotFound && HasMint(s, m) && TRANSFER_FEE_CONFIG !in Get(s, m).data.mint.types)
      || (e == Overflow && HasMint(s, m) && Get(s, m).data.mint.ext.fee.withheld + ToTake(s, i) > U64_MAX)
    case WithdrawExcessLamports(k, dest, authority, signers) =>
      || (e == NativeNotSupported && HasToken(s, k) && Get(s, k).data.token.native.Some?)
      || (e == AuthorityTypeNotSupported && HasMint(s, k) && Get(s, k).data.mint.authority.None?)
      || (e == InvalidState && !HasToken(s, k) && !HasMint(s, k) && Get(s, k).dataLen != MULTISIG_LEN)
      || (e == OwnerMismatch && authority.key !in InCharge(s, i))
      || (e == MissingRequiredSignature && authority.key in InCharge(s, i)
          && !Agrees(s, authority.key, authority, signers))
      || (e == NotRentExempt && Get(s, k).lamports < ctx.rent(Get(s, k).dataLen))
      || (e == Overflow && k != dest && Get(s, k).lamports >= ctx.rent(Get(s, k).dataLen)
          && Get(s, dest).lamports + Get(s, k).lamports - ctx.rent(Get(s, k).dataLen) > U64_MAX)
    case Reallocate(k, payer, authority, signers, newTypes) =>
      || ((e == UninitializedAccount || e == InvalidAccountData) && WrongKind(s, i))
      || (e == OwnerMismatch && authority.key !in InCharge(s, i))
      || (e == MissingRequiredSignature && authority.key in InCharge(s, i)
          && !Agrees(s, authority.key, authority, signers))
      || (e == InvalidState && exists t :: t in newTypes && AccountTypeOf(t) != Account)
      || (HasToken(s, k)
          && var x := Get(s, k);
             || (e == InvalidArgument && !AllSized(x.data.token.types + newTypes))
             || (e == InvalidArgument && payer.key == k)
             || (e == Overflow && x.data.token.native.Some? && x.lamports < x.data.token.amount)
             || (TryCalculateAccountLen(AccountBase, x.data.token.types + newTypes).Ok?
                 && var needed := TryCalculateAccountLen(AccountBase, x.data.token.types + newTypes).value;
                    needed > x.dataLen && PayMeans(s, payer, k, Missing(ctx, x, needed), e)))
    case CreateNativeMint(payer) =>
      var have, reserve := Get(s, NATIVE_MINT).lamports, ctx.rent(MINT_LEN);
      || (e == AlreadyInUse && IsMint(s, NATIVE_MINT))
      || PayMeans(s, payer, NATIVE_MINT, if reserve > have then reserve - have else 0, e)
  }

  lemma SyncErrors(s: State, ctx: Ctx, i: Instr)
    requires Inv(s) && i.SyncNative? && Process(s, ctx, i).Err?
    ensures LamportsMean(s, ctx, i, Process(s, ctx, i).error)
  {
    hide Inv, InCharge, PayMeans, ToTake, Missing, TryCalculateAccountLen;
    if IsToken(s, i.account) { NativeCovered(s, i.account); }
  }

  lemma {:induction false} HarvestAllErrors(s: State, mint: Pubkey, ks: seq<Pubkey>)
    requires HasMint(s, mint) && L.HarvestAll(s, mint, ks).Err?
    ensures L.HarvestAll(s, mint, ks) == Err(Overflow)
  {
    if L.HarvestAll(s, mint, ks[..|ks| - 1]).Err? { HarvestAllErrors(s, mint, ks[..|ks| - 1]); }
  }

  lemma HarvestErrors(s: State, ctx: Ctx, i: Instr)
    requires i.HarvestWithheldToMint? && Process(s, ctx, i).Err?
    ensures LamportsMean(s, ctx, i, Process(s, ctx, i).error)
  {
    hide L.HarvestAll, SumOnce, Harvested;
    if HasMint(s, i.mint) && L.HarvestAll(s, i.mint, i.sources).Err? {
      HarvestAllErrors(s, i.mint, i.sources);
      HarvestMeans(s, i.mint, i.sources);
    }
  }

  lemma ExcessChecks(s: State, ctx: Ctx, i: Instr)
    requires Good(s) && i.WithdrawExcessLamports?
    requires L.CheckWithdrawExcess(s, i.account, i.authority, i.signers).Err?
    ensures LamportsMean(s, ctx, i, L.CheckWithdrawExcess(s, i.account, i.authority, i.signers).error)
  {
    hide Multisigs.ValidateOwner, Good, PayMeans, ToTake, Missing, TryCalculateAccountLen;
    match Get(s, i.account).data
    case TokenData(a) => OwnerErrors(s, a.owner, i.authority, i.signers);
    case MintData(m) => if m.authority.Some? { OwnerErrors(s, m.authority.value, i.authority, i.signers); }
    case _ => OwnerErrors(s, i.account, i.authority, i.signers);
  }

  lemma ExcessErrors(s: State, ctx: Ctx, i: Instr)
    requires Good(s) && i.WithdrawExcessLamports? && Process(s, ctx, i).Err?
    ensures LamportsMean(s, ctx, i, Process(s, ctx, i).error)
  {
    hide L.CheckWithdrawExcess, Good, InCharge;
    if L.CheckWithdrawExcess(s, i.account, i.authority, i.signers).Err? { ExcessChecks(s, ctx, i); }
  }

  lemma GrowErrors(s: State, ctx: Ctx, k: Pubkey, payer: Signer, needed: nat)
    requires HasToken(s, k) && needed > Get(s, k).dataLen && L.Grow(s, ctx, k, payer, needed).Err?
    ensures var e, x := L.Grow(s, ctx, k, payer, needed).error, Get(s, k);
            || (e == Overflow && x.data.token.native.Some? && x.lamports < x.data.token.amount)
            || (e == InvalidArgument && payer.key == k)
            || PayMeans(s, payer, k, Missing(ctx, x, needed), e)
  {
    hide L.SystemTransfer;
    var x := Get(s, k);
    var grown := s[k := x.(dataLen := needed)];
    var missing := Missing(ctx, x, needed);
    if L.SystemTransfer(grown, payer, k, missing).Err? {
      PayErrors(grown, payer, k, missing);
    } else if payer.key != k {
      SystemTransferKeeps(grown, payer, k, missing, k);
    } else {
      PayIff(grown, payer, k, missing);
    }
  }

  lemma ReallocateErrors(s: State, ctx: Ctx, i: Instr)
    requires Good(s) && i.Reallocate? && Process(s, ctx, i).Err?
    ensures LamportsMean(s, ctx, i, Process(s, ctx, i).error)
  {
    hide Multisigs.ValidateOwner, Good, L.Grow, Missing, PayMeans, SumTlvLen, Dedupe;
    if HasToken(s, i.account) {
      OwnerErrors(s, Get(s, i.account).data.token.owner, i.authority, i.signers);
      var needed := TryCalculateAccountLen(AccountBase, Get(s, i.account).data.token.types + i.newTypes);
      if needed.Ok? && needed.value > Get(s, i.account).dataLen
         && L.Grow(s, ctx, i.account, i.payer, needed.value).Err? {
        GrowErrors(s, ctx, i.account, i.payer, needed.value);
      }
    }
  }

  lemma CreateNativeErrors(s: State, ctx: Ctx, i: Instr)
    requires Good(s) && i.CreateNativeMint? && Process(s, ctx, i).Err?
    ensures LamportsMean(s, ctx, i, Process(s, ctx, i).error)
  {
    hide L.SystemTransfer, Good, PayMeans;
    var have, reserve := Get(s, NATIVE_MINT).lamports, ctx.rent(MINT_LEN);
    var missing := if reserve > have then reserve - have else 0;
    GoodAt(s, NATIVE_MINT);
    if L.SystemTransfer(s, i.payer, NATIVE_MINT, missing).Err? {
      PayErrors(s, i.payer, NATIVE_MINT, missing);
    } else {
      SystemTransferKeepsData(s, i.payer, NATIVE_MINT, missing, NATIVE_MINT);
    }
  }

  /** The same for the instructions on lamports and lengths, and for harvesting, which nobody has to agree to. */
  lemma LamportErrorsTellTheTruth(s: State, ctx: Ctx, i: Instr)
    requires Inv(s) && MovesLamports(i) && Process(s, ctx, i).Err?
    ensures LamportsMean(s, ctx, i, Process(s, ctx, i).error)
  {
    hide Process, LamportsMean, Inv;
    InvGood(s);
    match i
    case SyncNative(_) => SyncErrors(s, ctx, i);
    case WithdrawExcessLamports(_, _, _, _) => ExcessErrors(s, ctx, i);
    case Reallocate(_, _, _, _, _) => ReallocateErrors(s, ctx, i);
    case CreateNativeMint(_) => CreateNativeErrors(s, ctx, i);
    case HarvestWithheldToMint(_, _) => HarvestErrors(s, ctx, i);
  }
}
