/** Every step keeps every account good. */
module LedgerGood {
  import opened Bytes
  import opened Common
  import opened ExtensionTypes
  import opened TransferFees
  import opened LedgerState
  import opened LedgerRuns
  import Multisigs
  import L = Ledger

  /** Instructions that change one account, and which one. */
  function Target(i: Instr): Option<Pubkey> {
    match i
    case InitializeMint(k, _, _, _) => Some(k)
    case InitializeMintCloseAuthority(k, _) => Some(k)
    case InitializeNonTransferableMint(k) => Some(k)
    case InitializePermanentDelegate(k, _) => Some(k)
    case InitializeDefaultAccountState(k, _) => Some(k)
    case InitializeTransferFeeConfig(k, _, _, _, _) => Some(k)
    case InitializeAuthorityExtension(k, _, _, _) => Some(k)
    case InitializeImmutableOwner(k) => Some(k)
    case InitializeAccount(k, _, _) => Some(k)
    case InitializeMultisig(k, _, _) => Some(k)
    case Approve(k, _, _, _, _, _) => Some(k)
    case Revoke(k, _, _) => Some(k)
    case SetAuthority(k, _, _, _, _) => Some(k)
    case ToggleFreeze(k, _, _, _, _) => Some(k)
    case UpdateDefaultAccountState(k, _, _, _) => Some(k)
    case SyncNative(k) => Some(k)
    case ToggleCpiGuard(k, _, _, _) => Some(k)
    case ToggleMemo(k, _, _, _) => Some(k)
    case SetTransferFee(k, _, _, _, _) => Some(k)
    case _ => None
  }

  predicate Initializes(i: Instr) {
    || i.InitializeMint? || i.InitializeMintCloseAuthority? || i.InitializeNonTransferableMint?
    || i.InitializePermanentDelegate? || i.InitializeDefaultAccountState? || i.InitializeTransferFeeConfig?
    || i.InitializeAuthorityExtension? || i.InitializeImmutableOwner? || i.InitializeMultisig? || i.InitializeAccount?
  }

  /** Only the account with this key changes, and not its lamports. */
  predicate ChangesOnly(s: State, s': State, k: Pubkey) {
    s' == s[k := Get(s', k)] && Get(s', k).lamports == Get(s, k).lamports
  }

  lemma SetupTarget(s: State, ctx: Ctx, i: Instr)
    requires Initializes(i) && Process(s, ctx, i).Ok?
    ensures ChangesOnly(s, Process(s, ctx, i).value, Target(i).value)
  {
    hide Process, ChangesOnly;
    if i.InitializeMint? || i.InitializeImmutableOwner? || i.InitializeMultisig? || i.InitializeAccount? {
      BaseTarget(s, ctx, i);
    } else {
      ExtensionTarget(s, ctx, i);
    }
  }

  lemma BaseTarget(s: State, ctx: Ctx, i: Instr)
    requires i.InitializeMint? || i.InitializeImmutableOwner? || i.InitializeMultisig? || i.InitializeAccount?
    requires Process(s, ctx, i).Ok?
    ensures ChangesOnly(s, Process(s, ctx, i).value, Target(i).value)
  {
    hide InitExtension, InitExtensions, UnpackUninitialized, TryCalculateAccountLen, RequiredInitAccountExtensions,
         ValidMintCombination, L.BlankExt;
  }

  lemma ExtensionTarget(s: State, ctx: Ctx, i: Instr)
    requires i.InitializeMintCloseAuthority? || i.InitializeNonTransferableMint? || i.InitializePermanentDelegate?
             || i.InitializeDefaultAccountState? || i.InitializeTransferFeeConfig? || i.InitializeAuthorityExtension?
    requires Process(s, ctx, i).Ok?
    ensures ChangesOnly(s, Process(s, ctx, i).value, Target(i).value)
  {
    hide InitExtension, UnpackUninitialized, L.BlankExt, NonZero;
  }

  lemma EditTarget(s: State, ctx: Ctx, i: Instr)
    requires !Initializes(i) && Target(i).Some? && Process(s, ctx, i).Ok?
    ensures ChangesOnly(s, Process(s, ctx, i).value, Target(i).value)
  {
    hide Multisigs.ValidateOwner, L.SetTokenAuthority, L.SetMintAuthority, InitExtension, L.CheckMint;
  }

  /** An instruction with one target changes nothing but that account. */
  lemma SingleTarget(s: State, ctx: Ctx, i: Instr)
    requires Target(i).Some? && Process(s, ctx, i).Ok?
    ensures ChangesOnly(s, Process(s, ctx, i).value, Target(i).value)
  {
    hide Process, ChangesOnly;
    if Initializes(i) {
      SetupTarget(s, ctx, i);
    } else {
      EditTarget(s, ctx, i);
    }
  }

  lemma GoodSetup(s: State, ctx: Ctx, i: Instr)
    requires Good(s) && Process(s, ctx, i).Ok?
    requires i.InitializeMint? || i.InitializeMintCloseAuthority? || i.InitializeNonTransferableMint?
             || i.InitializePermanentDelegate? || i.InitializeDefaultAccountState? || i.InitializeTransferFeeConfig?
             || i.InitializeAuthorityExtension? || i.InitializeImmutableOwner? || i.InitializeMultisig?
    ensures var k := Target(i).value; GoodInfo(k, Get(Process(s, ctx, i).value, k))
  {
    hide Process, GoodInfo;
    if i.InitializeMint? || i.InitializeImmutableOwner? || i.InitializeMultisig? {
      GoodBase(s, ctx, i);
    } else {
      GoodExtension(s, ctx, i);
    }
  }

  lemma GoodBase(s: State, ctx: Ctx, i: Instr)
    requires Good(s) && Process(s, ctx, i).Ok?
    requires i.InitializeMint? || i.InitializeImmutableOwner? || i.InitializeMultisig?
    ensures var k := Target(i).value; GoodInfo(k, Get(Process(s, ctx, i).value, k))
  {
    hide InitExtension, TryCalculateAccountLen, ValidMintCombination, Good, Room;
    GoodAt(s, Target(i).value);
  }

  lemma GoodExtension(s: State, ctx: Ctx, i: Instr)
    requires Good(s) && Process(s, ctx, i).Ok?
    requires i.InitializeMintCloseAuthority? || i.InitializeNonTransferableMint? || i.InitializePermanentDelegate?
             || i.InitializeDefaultAccountState? || i.InitializeTransferFeeConfig? || i.InitializeAuthorityExtension?
    ensures var k := Target(i).value; GoodInfo(k, Get(Process(s, ctx, i).value, k))
  {
    hide InitExtension, Good, Room;
    GoodAt(s, Target(i).value);
  }

  lemma GoodNewAccount(s: State, ctx: Ctx, i: Instr)
    requires Good(s) && i.InitializeAccount? && Process(s, ctx, i).Ok?
    ensures GoodInfo(i.account, Get(Process(s, ctx, i).value, i.account))
  {
    hide InitExtensions, TryCalculateAccountLen, RequiredInitAccountExtensions;
    assert GoodInfo(i.account, Get(s, i.account));
    assert GoodInfo(i.mint, Get(s, i.mint));
  }

  lemma GoodTokenEdit(s: State, ctx: Ctx, i: Instr)
    requires Good(s) && Process(s, ctx, i).Ok?
    requires i.Approve? || i.Revoke? || i.ToggleFreeze? || i.SyncNative?
    ensures var k := Target(i).value; GoodInfo(k, Get(Process(s, ctx, i).value, k))
  {
    hide Multisigs.ValidateOwner, L.CheckMint, Good, FitsToken, FitsMint, FitsBlank, GoodMultisig;
    GoodAt(s, Target(i).value);
  }

  lemma GoodMintEdit(s: State, ctx: Ctx, i: Instr)
    requires Good(s) && Process(s, ctx, i).Ok? && (i.UpdateDefaultAccountState? || i.SetTransferFee?)
    ensures var k := Target(i).value; GoodInfo(k, Get(Process(s, ctx, i).value, k))
  {
    hide Multisigs.ValidateOwner, Good, FitsToken, FitsMint, FitsBlank, GoodMultisig;
    GoodAt(s, Target(i).value);
  }

  lemma GoodToggle(s: State, ctx: Ctx, i: Instr)
    requires Good(s) && Process(s, ctx, i).Ok? && (i.ToggleCpiGuard? || i.ToggleMemo?)
    ensures var k := Target(i).value; GoodInfo(k, Get(Process(s, ctx, i).value, k))
  {
    hide Multisigs.ValidateOwner, InitExtension, Good, FitsMint, FitsBlank, GoodMultisig, Room;
    GoodAt(s, Target(i).value);
  }

  lemma GoodSetAuthority(s: State, ctx: Ctx, i: Instr)
    requires Good(s) && i.SetAuthority? && Process(s, ctx, i).Ok?
    ensures GoodInfo(i.account, Get(Process(s, ctx, i).value, i.account))
  {
    hide Multisigs.ValidateOwner, FitsToken, FitsMint, FitsBlank, L.ReplaceExtensionAuthority, Good;
    GoodAt(s, i.account);
  }

  // ------------------------------------------------------------------ the parts of a transfer, a burn and a mint

  /** The fee and permanent delegate a transfer goes by. */
  function Terms(s: State, ctx: Ctx, i: Instr): Result<(u64, Option<Pubkey>, Option<Pubkey>)>
    requires i.Transfer? && IsToken(s, i.account)
  {
    L.TransferTerms(s, ctx, TokenAt(s, i.account), i.checked, i.amount)
  }

  /** What the part of a transfer behind the checks on the source found and what it leaves. */
  lemma MoveParts(s: State, ctx: Ctx, source: Pubkey, a: Token, dest: Pubkey, amount: u64, fee: u64,
                  hook: Option<Pubkey>)
    requires source != dest && L.Move(s, ctx, source, a, dest, amount, fee, hook).Ok?
    ensures UnpackToken(Get(s, dest)).Ok?
    ensures var d := UnpackToken(Get(s, dest)).value;
            var si, di := Get(s, source), Get(s, dest);
            var moved := if a.native.Some? then amount else 0;
            && a.mint == d.mint && !d.frozen && fee <= amount <= a.amount
                && (fee > 0 ==> TRANSFER_FEE_AMOUNT in d.types)
            && (MEMO_TRANSFER in d.types && d.memoRequired ==> ctx.memoBefore)
            && moved <= si.lamports && di.lamports + moved <= U64_MAX
            && d.amount + amount - fee <= U64_MAX && (fee > 0 ==> d.withheld + fee <= U64_MAX)
            && L.Move(s, ctx, source, a, dest, amount, fee, hook).value ==
               s[source := si.(data := TokenData(a.(amount := a.amount - amount)), lamports := si.lamports - moved)]
                [dest := di.(data := TokenData(d.(amount := d.amount + (amount - fee),
                                                  withheld := if fee == 0 then d.withheld else d.withheld + fee)),
                             lamports := di.lamports + moved)]
  {
    hide L.CheckHook;
  }

  /** What a successful transfer between two accounts found and what it leaves. */
  lemma TransferParts(s: State, ctx: Ctx, i: Instr) returns (a': Token, fee: u64)
    requires i.Transfer? && Process(s, ctx, i).Ok? && i.account != i.dest
    ensures IsToken(s, i.account) && IsToken(s, i.dest)
    ensures var a, d := TokenAt(s, i.account), TokenAt(s, i.dest);
            var si, di := Get(s, i.account), Get(s, i.dest);
            var moved := if a.native.Some? then i.amount else 0;
            && a.mint == d.mint && !a.frozen && !d.frozen && fee <= i.amount <= a.amount
            && NON_TRANSFERABLE_ACCOUNT !in a.types && (fee > 0 ==> TRANSFER_FEE_AMOUNT in d.types)
            && (i.expectedFee.Some? ==> i.expectedFee.value == fee)
            && (MEMO_TRANSFER in d.types && d.memoRequired ==> ctx.memoBefore)
            && Terms(s, ctx, i).Ok? && Terms(s, ctx, i).value.0 == fee
            && L.AuthorizeDebit(s, ctx, a, Terms(s, ctx, i).value.1, i.authority, i.signers, i.amount, true,
                                CpiGuardTransferBlocked) == Ok(a')
            && moved <= si.lamports && di.lamports + moved <= U64_MAX
            && d.amount + i.amount - fee <= U64_MAX && (fee > 0 ==> d.withheld + fee <= U64_MAX)
            && a' == a.(delegate := a'.delegate, delegatedAmount := a'.delegatedAmount)
            && (a'.delegate.None? ==> a' == a || a'.delegatedAmount == 0)
            && Process(s, ctx, i).value ==
               s[i.account := si.(data := TokenData(a'.(amount := a.amount - i.amount)),
                                  lamports := si.lamports - moved)]
                [i.dest := di.(data := TokenData(d.(amount := d.amount + (i.amount - fee),
                                                    withheld := if fee == 0 then d.withheld else d.withheld + fee)),
                               lamports := di.lamports + moved)]
  {
    hide Multisigs.ValidateOwner, L.TransferTerms, L.Move;
    var a := Get(s, i.account).data.token;
    fee := Terms(s, ctx, i).value.0;
    a' := L.AuthorizeDebit(s, ctx, a, Terms(s, ctx, i).value.1, i.authority, i.signers, i.amount, true,
                           CpiGuardTransferBlocked).value;
    MoveParts(s, ctx, i.account, a', i.dest, i.amount, fee, Terms(s, ctx, i).value.2);
  }

  /** Where an overflow or a state error of a transfer can come from. */
  lemma TransferUnfolds(s: State, ctx: Ctx, i: Instr, e: Error)
    requires i.Transfer? && IsToken(s, i.account) && (e == Overflow || e == InvalidState)
    ensures Process(s, ctx, i) == Err(e) ==>
              && i.amount <= TokenAt(s, i.account).amount
              && (|| Terms(s, ctx, i) == Err(e)
                  || (Terms(s, ctx, i).Ok? &&
                      var (fee, pd, hook) := Terms(s, ctx, i).value;
                      var r := L.AuthorizeDebit(s, ctx, TokenAt(s, i.account), pd, i.authority, i.signers, i.amount,
                                                i.account != i.dest, CpiGuardTransferBlocked);
                      || r == Err(e)
                      || (r.Ok? && i.account != i.dest && Get(s, i.dest).owner == TOKEN_PROGRAM
                          && L.Move(s, ctx, i.account, r.value, i.dest, i.amount, fee, hook) == Err(e))))
  {
    hide L.AuthorizeDebit, L.Move, L.TransferTerms;
  }

  lemma GoodTransfer(s: State, ctx: Ctx, i: Instr)
    requires Good(s) && i.Transfer? && Process(s, ctx, i).Ok?
    ensures Good(Process(s, ctx, i).value)
  {
    hide Process, L.AuthorizeDebit, L.TransferTerms;
    if i.account == i.dest {
      SelfTransfer(s, ctx, i);
    } else {
      var a', fee := TransferParts(s, ctx, i);
      var s' := Process(s, ctx, i).value;
      assert GoodInfo(i.account, Get(s, i.account)) && GoodInfo(i.dest, Get(s, i.dest));
      GoodUpdate(s, i.account, Get(s', i.account));
      GoodUpdate(s[i.account := Get(s', i.account)], i.dest, Get(s', i.dest));
    }
  }

  lemma SelfTransfer(s: State, ctx: Ctx, i: Instr)
    requires i.Transfer? && i.account == i.dest && Process(s, ctx, i).Ok?
    ensures Process(s, ctx, i) == Ok(s)
  {
  }

  lemma MintToParts(s: State, ctx: Ctx, i: Instr)
    requires i.MintTo? && Process(s, ctx, i).Ok?
    ensures IsMint(s, i.mint) && IsToken(s, i.dest) && i.mint != i.dest
    ensures var m, d := MintAt(s, i.mint), TokenAt(s, i.dest);
            && d.mint == i.mint && !d.frozen && d.native.None? && m.authority.Some?
            && (NON_TRANSFERABLE in m.types ==> IMMUTABLE_OWNER in d.types)
            && d.amount + i.amount <= U64_MAX && m.supply + i.amount <= U64_MAX
            && Process(s, ctx, i).value ==
               s[i.dest := Get(s, i.dest).(data := TokenData(d.(amount := d.amount + i.amount)))]
                [i.mint := Get(s, i.mint).(data := MintData(m.(supply := m.supply + i.amount)))]
  {
    hide Multisigs.ValidateOwner;
  }

  /** The debit a burn authorises: none is asked for when the system program or the incinerator owns the account. */
  function BurnDebit(s: State, ctx: Ctx, i: Instr): Result<Token>
    requires i.Burn? && IsToken(s, i.account) && IsMint(s, i.mint)
  {
    var a := TokenAt(s, i.account);
    if a.OwnedBySystemOrIncinerator() then Ok(a)
    else L.AuthorizeDebit(s, ctx, a, PermanentDelegateOf(MintAt(s, i.mint)), i.authority, i.signers, i.amount, true,
                          CpiGuardBurnBlocked)
  }

  lemma BurnParts(s: State, ctx: Ctx, i: Instr) returns (a': Token)
    requires i.Burn? && Process(s, ctx, i).Ok?
    ensures IsMint(s, i.mint) && IsToken(s, i.account) && i.mint != i.account
    ensures var m, a := MintAt(s, i.mint), TokenAt(s, i.account);
            && a.mint == i.mint && !a.frozen && a.native.None? && i.amount <= a.amount && i.amount <= m.supply
            && BurnDebit(s, ctx, i) == Ok(a')
            && a' == a.(delegate := a'.delegate, delegatedAmount := a'.delegatedAmount)
            && (a'.delegate.None? ==> a' == a || a'.delegatedAmount == 0)
            && Process(s, ctx, i).value ==
               s[i.account := Get(s, i.account).(data := TokenData(a'.(amount := a.amount - i.amount)))]
                [i.mint := Get(s, i.mint).(data := MintData(m.(supply := m.supply - i.amount)))]
  {
    hide Multisigs.ValidateOwner;
    a' := BurnDebit(s, ctx, i).value;
  }

  lemma CloseParts(s: State, ctx: Ctx, i: Instr)
    requires i.CloseAccount? && Process(s, ctx, i).Ok?
    ensures var ci, di := Get(s, i.account), Get(s, i.dest);
            && i.account != i.dest && di.lamports + ci.lamports <= U64_MAX
            && (match ci.data
                case TokenData(a) => L.CheckCloseToken(s, ctx, a, i.dest, i.authority, i.signers).Ok?
                case MintData(m) => L.CheckCloseMint(s, m, i.authority, i.signers).Ok?
                case _ => false)
            && Process(s, ctx, i).value == s[i.dest := di.(lamports := di.lamports + ci.lamports)][i.account := ABSENT]
  {
    hide L.CheckCloseToken, L.CheckCloseMint;
  }

  lemma CheckCloseTokenMeans(s: State, ctx: Ctx, a: Token, dest: Pubkey, authority: Signer, signers: seq<Signer>)
    requires L.CheckCloseToken(s, ctx, a, dest, authority, signers).Ok?
    ensures (a.native.Some? || a.amount == 0) && a.Withheld() == 0
    ensures a.GuardBlocks(ctx.inCpi) && !a.OwnedBySystemOrIncinerator() ==> dest == a.owner
  {
    hide Multisigs.ValidateOwner;
  }

  lemma CheckCloseMintMeans(s: State, m: Mint, authority: Signer, signers: seq<Signer>)
    requires L.CheckCloseMint(s, m, authority, signers).Ok?
    ensures m.supply == 0 && MINT_CLOSE_AUTHORITY in m.types
  {
    hide Multisigs.ValidateOwner;
  }

  // ------------------------------------------------------------------ the other instructions that change two accounts

  lemma GoodSupply(s: State, ctx: Ctx, i: Instr)
    requires Good(s) && (i.MintTo? || i.Burn?) && Process(s, ctx, i).Ok?
    ensures Good(Process(s, ctx, i).value)
  {
    hide Process, BurnDebit;
    var k := if i.MintTo? then i.dest else i.account;
    if i.MintTo? {
      MintToParts(s, ctx, i);
    } else {
      var a' := BurnParts(s, ctx, i);
    }
    var s' := Process(s, ctx, i).value;
    assert GoodInfo(k, Get(s, k)) && GoodInfo(i.mint, Get(s, i.mint));
    GoodUpdate(s, k, Get(s', k));
    GoodUpdate(s[k := Get(s', k)], i.mint, Get(s', i.mint));
  }

  lemma GoodClose(s: State, ctx: Ctx, i: Instr)
    requires Good(s) && i.CloseAccount? && Process(s, ctx, i).Ok?
    ensures Good(Process(s, ctx, i).value)
  {
    hide Process, L.CheckCloseToken, L.CheckCloseMint;
    CloseParts(s, ctx, i);
    var s' := Process(s, ctx, i).value;
    assert GoodInfo(i.account, Get(s, i.account)) && GoodInfo(i.dest, Get(s, i.dest));
    if Get(s, i.account).data.MintData? {
      CheckCloseMintMeans(s, Get(s, i.account).data.mint, i.authority, i.signers);
    }
    GoodUpdate(s, i.dest, Get(s', i.dest));
    GoodUpdate(s[i.dest := Get(s', i.dest)], i.account, ABSENT);
  }

  lemma GoodLamports(k: Pubkey, i: Info, lamports: u64)
    requires GoodInfo(k, i) && (lamports >= i.lamports || !(i.data.TokenData? && i.data.token.native.Some?))
    ensures GoodInfo(k, i.(lamports := lamports))
  {
  }

  lemma GoodWithdrawExcess(s: State, ctx: Ctx, i: Instr)
    requires Good(s) && i.WithdrawExcessLamports? && Process(s, ctx, i).Ok?
    ensures Good(Process(s, ctx, i).value)
  {
    hide Multisigs.ValidateOwner, GoodInfo;
    assert GoodInfo(i.account, Get(s, i.account));
    var reserve := ctx.rent(Get(s, i.account).dataLen);
    GoodLamports(i.account, Get(s, i.account), reserve);
    var s1 := s[i.account := Get(s, i.account).(lamports := reserve)];
    GoodUpdate(s, i.account, Get(s1, i.account));
    assert GoodInfo(i.dest, Get(s1, i.dest));
    var s' := Process(s, ctx, i).value;
    GoodLamports(i.dest, Get(s1, i.dest), Get(s', i.dest).lamports);
    GoodUpdate(s1, i.dest, Get(s', i.dest));
  }

  lemma GoodSystemTransfer(s: State, payer: Signer, dest: Pubkey, lamports: nat)
    requires Good(s) && L.SystemTransfer(s, payer, dest, lamports).Ok?
    ensures Good(L.SystemTransfer(s, payer, dest, lamports).value)
  {
    hide GoodInfo;
    var pi := Get(s, payer.key);
    assert GoodInfo(payer.key, pi);
    var s1 := s[payer.key := pi.(lamports := pi.lamports - lamports)];
    PayerStaysGood(payer.key, pi, pi.lamports - lamports);
    GoodUpdate(s, payer.key, Get(s1, payer.key));
    assert GoodInfo(dest, Get(s1, dest));
    GoodLamports(dest, Get(s1, dest), Get(s1, dest).lamports + lamports);
    GoodUpdate(s1, dest, Get(s1, dest).(lamports := Get(s1, dest).lamports + lamports));
  }

  lemma PayerStaysGood(k: Pubkey, i: Info, lamports: u64)
    requires GoodInfo(k, i) && i.owner == SYSTEM_PROGRAM
    ensures GoodInfo(k, i.(lamports := lamports))
  {
  }

  /** What a system transfer leaves of an account that is not the payer. */
  lemma SystemTransferKeeps(s: State, payer: Signer, dest: Pubkey, lamports: nat, k: Pubkey)
    requires L.SystemTransfer(s, payer, dest, lamports).Ok? && k != payer.key
    ensures var s' := L.SystemTransfer(s, payer, dest, lamports).value;
            Get(s', k) == if k == dest then Get(s, k).(lamports := Get(s, k).lamports + lamports) else Get(s, k)
    ensures Get(s, k).lamports + (if k == dest then lamports else 0) <= U64_MAX
  {
  }

  lemma SystemTransferKeepsData(s: State, payer: Signer, dest: Pubkey, lamports: nat, k: Pubkey)
    requires L.SystemTransfer(s, payer, dest, lamports).Ok?
    ensures var i' := Get(L.SystemTransfer(s, payer, dest, lamports).value, k);
            i' == Get(s, k).(lamports := i'.lamports)
  {
  }

  lemma PayerIsNotToken(s: State, payer: Signer, dest: Pubkey, lamports: nat)
    requires L.SystemTransfer(s, payer, dest, lamports).Ok?
    ensures Get(s, payer.key).owner == SYSTEM_PROGRAM
  {
  }

  lemma GoodGrow(s: State, ctx: Ctx, k: Pubkey, payer: Signer, needed: nat)
    requires Good(s) && Get(s, k).data.TokenData? && L.Grow(s, ctx, k, payer, needed).Ok?
    requires needed >= Get(s, k).dataLen && needed != MULTISIG_LEN
    ensures Good(L.Grow(s, ctx, k, payer, needed).value)
  {
    hide L.SystemTransfer, Good;
    assert Good(s) && GoodInfo(k, Get(s, k)) by { GoodAt(s, k); }
    var i := Get(s, k);
    var grown := s[k := i.(dataLen := needed)];
    GoodUpdate(s, k, i.(dataLen := needed));
    var a := i.data.token;
    var reserve := ctx.rent(needed);
    var current := i.lamports - (if a.native.Some? then a.amount else 0);
    var paid := if reserve > current then L.SystemTransfer(grown, payer, k, reserve - current).value else grown;
    if reserve > current {
      GoodSystemTransfer(grown, payer, k, reserve - current);
      SystemTransferKeepsData(grown, payer, k, reserve - current, k);
    }
    if a.native.Some? {
      var i' := Get(paid, k);
      GoodAt(paid, k);
      GoodUpdate(paid, k, L.WithToken(i', a.(native := Some(reserve))));
    }
  }

  lemma GoodAt(s: State, k: Pubkey)
    requires Good(s)
    ensures GoodInfo(k, Get(s, k))
  {
  }

  lemma GoodReallocate(s: State, ctx: Ctx, i: Instr)
    requires Good(s) && i.Reallocate? && Process(s, ctx, i).Ok?
    ensures Good(Process(s, ctx, i).value)
  {
    hide Multisigs.ValidateOwner, L.Grow, TryCalculateAccountLen, Good;
    if Process(s, ctx, i).value != s {
      var needed := TryCalculateAccountLen(AccountBase, Get(s, i.account).data.token.types + i.newTypes).value;
      CalculatedLenIsNotMultisig(AccountBase, Get(s, i.account).data.token.types + i.newTypes);
      GoodGrow(s, ctx, i.account, i.payer, needed);
    }
  }

  lemma GoodCreateNative(s: State, ctx: Ctx, i: Instr)
    requires Good(s) && i.CreateNativeMint? && Process(s, ctx, i).Ok?
    ensures Good(Process(s, ctx, i).value)
  {
    hide L.SystemTransfer, Good;
    var have, reserve := Get(s, NATIVE_MINT).lamports, ctx.rent(MINT_LEN);
    var diff := if reserve > have then reserve - have else 0;
    GoodSystemTransfer(s, i.payer, NATIVE_MINT, diff);
    var paid := L.SystemTransfer(s, i.payer, NATIVE_MINT, diff).value;
    GoodUpdate(paid, NATIVE_MINT, Get(Process(s, ctx, i).value, NATIVE_MINT));
  }

  // ------------------------------------------------------------------ withheld fees

  lemma WithdrawalChecked(s: State, mintKey: Pubkey, dest: Pubkey, authority: Signer, signers: seq<Signer>)
    requires L.CheckWithdrawal(s, mintKey, dest, authority, signers).Ok?
    ensures IsMint(s, mintKey) && TRANSFER_FEE_CONFIG in MintAt(s, mintKey).types
    ensures var i := Get(s, dest);
            && i.data.TokenData? && L.CheckWithdrawal(s, mintKey, dest, authority, signers) == Ok(i.data.token)
            && i.data.token.mint == mintKey && !i.data.token.frozen
  {
    hide Multisigs.ValidateOwner;
  }

  lemma NativeHasNoFees(s: State, mintKey: Pubkey)
    requires Good(s) && IsMint(s, mintKey) && TRANSFER_FEE_CONFIG in MintAt(s, mintKey).types
    ensures mintKey != NATIVE_MINT
  {
    assert GoodInfo(mintKey, Get(s, mintKey));
  }

  lemma GoodWithdrawFromMint(s: State, ctx: Ctx, i: Instr)
    requires Good(s) && i.WithdrawWithheldFromMint? && Process(s, ctx, i).Ok?
    ensures Good(Process(s, ctx, i).value)
  {
    hide L.CheckWithdrawal, Good;
    WithdrawalChecked(s, i.mint, i.dest, i.authority, i.signers);
    NativeHasNoFees(s, i.mint);
    var s' := Process(s, ctx, i).value;
    GoodAt(s, i.mint);
    GoodAt(s, i.dest);
    GoodUpdate(s, i.mint, Get(s', i.mint));
    GoodUpdate(s[i.mint := Get(s', i.mint)], i.dest, Get(s', i.dest));
  }

  lemma GoodHarvestOne(s: State, mintKey: Pubkey, k: Pubkey)
    requires Good(s) && Get(s, mintKey).data.MintData? && L.HarvestOne(s, mintKey, k).Ok?
    ensures Good(L.HarvestOne(s, mintKey, k).value)
  {
    hide Good;
    var s' := L.HarvestOne(s, mintKey, k).value;
    if L.Harvestable(s, mintKey, k) {
      GoodAt(s, k);
      GoodAt(s, mintKey);
      GoodUpdate(s, k, Get(s', k));
      GoodUpdate(s[k := Get(s', k)], mintKey, Get(s', mintKey));
    }
  }

  lemma {:induction false} GoodHarvestAll(s: State, mintKey: Pubkey, sources: seq<Pubkey>)
    requires Good(s) && Get(s, mintKey).data.MintData? && L.HarvestAll(s, mintKey, sources).Ok?
    ensures Good(L.HarvestAll(s, mintKey, sources).value)
  {
    hide Good, L.HarvestOne;
    if sources != [] {
      var n := |sources| - 1;
      GoodHarvestAll(s, mintKey, sources[..n]);
      GoodHarvestOne(L.HarvestAll(s, mintKey, sources[..n]).value, mintKey, sources[n]);
    }
  }

  lemma GoodWithdrawOne(s: State, mintKey: Pubkey, dest: Pubkey, k: Pubkey)
    requires Good(s) && Get(s, dest).data.TokenData? && Get(s, dest).data.token.mint == mintKey
        && mintKey != NATIVE_MINT
    requires L.WithdrawOne(s, mintKey, dest, k).Ok?
    ensures Good(L.WithdrawOne(s, mintKey, dest, k).value)
  {
    hide Good;
    var s' := L.WithdrawOne(s, mintKey, dest, k).value;
    GoodAt(s, dest);
    if k == dest {
      GoodUpdate(s, dest, Get(s', dest));
    } else if L.Harvestable(s, mintKey, k) {
      GoodAt(s, k);
      GoodUpdate(s, k, Get(s', k));
      GoodUpdate(s[k := Get(s', k)], dest, Get(s', dest));
    }
  }

  /** Withdrawing leaves the destination the token account it was, but for its amounts. */
  lemma {:induction false} WithdrawAllKeepsDest(s: State, mintKey: Pubkey, dest: Pubkey, sources: seq<Pubkey>)
    requires Get(s, dest).data.TokenData? && L.WithdrawAll(s, mintKey, dest, sources).Ok?
    ensures var d, i' := Get(s, dest).data.token, Get(L.WithdrawAll(s, mintKey, dest, sources).value, dest);
            && i'.data.TokenData? && i'.owner == Get(s, dest).owner
            && i'.data.token == d.(amount := i'.data.token.amount, withheld := i'.data.token.withheld)
            && i'.data.token.amount >= d.amount
  {
    if sources != [] {
      WithdrawAllKeepsDest(s, mintKey, dest, sources[..|sources| - 1]);
    }
  }

  lemma {:induction false} GoodWithdrawAll(s: State, mintKey: Pubkey, dest: Pubkey, sources: seq<Pubkey>)
    requires Good(s) && Get(s, dest).data.TokenData? && Get(s, dest).data.token.mint == mintKey
        && mintKey != NATIVE_MINT
    requires L.WithdrawAll(s, mintKey, dest, sources).Ok?
    ensures Good(L.WithdrawAll(s, mintKey, dest, sources).value)
  {
    hide Good, L.WithdrawOne;
    if sources != [] {
      var n := |sources| - 1;
      GoodWithdrawAll(s, mintKey, dest, sources[..n]);
      WithdrawAllKeepsDest(s, mintKey, dest, sources[..n]);
      GoodWithdrawOne(L.WithdrawAll(s, mintKey, dest, sources[..n]).value, mintKey, dest, sources[n]);
    }
  }

  lemma GoodHarvest(s: State, ctx: Ctx, i: Instr)
    requires Good(s) && (i.HarvestWithheldToMint? || i.WithdrawWithheldFromAccounts?) && Process(s, ctx, i).Ok?
    ensures Good(Process(s, ctx, i).value)
  {
    hide L.CheckWithdrawal, L.HarvestAll, L.WithdrawAll, Good;
    if i.HarvestWithheldToMint? {
      GoodHarvestAll(s, i.mint, i.sources);
    } else {
      WithdrawalChecked(s, i.mint, i.dest, i.authority, i.signers);
      NativeHasNoFees(s, i.mint);
      GoodWithdrawAll(s, i.mint, i.dest, i.sources);
    }
  }

  // ------------------------------------------------------------------ every step

  lemma GoodProcess(s: State, ctx: Ctx, i: Instr)
    requires Good(s) && Process(s, ctx, i).Ok?
    ensures Good(Process(s, ctx, i).value)
  {
    hide Process, Good, GoodInfo;
    if Target(i).Some? {
      SingleTarget(s, ctx, i);
      if i.ToggleCpiGuard? || i.ToggleMemo? {
        GoodToggle(s, ctx, i);
      } else if i.Approve? || i.Revoke? || i.ToggleFreeze? || i.SyncNative? {
        GoodTokenEdit(s, ctx, i);
      } else if i.UpdateDefaultAccountState? || i.SetTransferFee? {
        GoodMintEdit(s, ctx, i);
      } else if i.SetAuthority? {
        GoodSetAuthority(s, ctx, i);
      } else if i.InitializeAccount? {
        GoodNewAccount(s, ctx, i);
      } else {
        GoodSetup(s, ctx, i);
      }
      var k := Target(i).value;
      GoodUpdate(s, k, Get(Process(s, ctx, i).value, k));
    } else {
      match i
      case Transfer(_, _, _, _, _, _, _) => GoodTransfer(s, ctx, i);
      case MintTo(_, _, _, _, _, _) => GoodSupply(s, ctx, i);
      case Burn(_, _, _, _, _, _) => GoodSupply(s, ctx, i);
      case CloseAccount(_, _, _, _) => GoodClose(s, ctx, i);
      case WithdrawExcessLamports(_, _, _, _) => GoodWithdrawExcess(s, ctx, i);
      case Reallocate(_, _, _, _, _) => GoodReallocate(s, ctx, i);
      case CreateNativeMint(_) => GoodCreateNative(s, ctx, i);
      case WithdrawWithheldFromMint(_, _, _, _) => GoodWithdrawFromMint(s, ctx, i);
      case HarvestWithheldToMint(_, _) => GoodHarvest(s, ctx, i);
      case WithdrawWithheldFromAccounts(_, _, _, _, _) => GoodHarvest(s, ctx, i);
    }
  }

  lemma GoodNext(s: State, e: Step)
    requires Good(s)
    ensures Good(Next(s, e))
  {
    hide Process;
    match e
    case Call(ctx, i) =>
      if Commits(s, ctx, i) { GoodProcess(s, ctx, i); }
    case Outside(k, i) =>
      if OutsideAllowed(Get(s, k), k, i) {
        GoodAt(s, k);
        if OnlyDeposited(Get(s, k), i) {
          GoodLamports(k, Get(s, k), i.lamports);
        }
        GoodUpdate(s, k, i);
      }
  }
}
