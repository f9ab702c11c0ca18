/** Which step may change what in a token account, and in a mint. */
module LedgerTokens {
  import opened Bytes
  import opened Common
  import opened ExtensionTypes
  import opened LedgerState
  import opened LedgerRuns
  import opened LedgerGood
  import Multisigs
  import L = Ledger

  predicate Locked(a: Token) {
    CPI_GUARD in a.types && a.lockCpi
  }

  /** The instruction debits account `k` on the word of its delegate. */
  predicate ByDelegate(s: State, ctx: Ctx, i: Instr, k: Pubkey)
    requires IsToken(s, k)
  {
    var a := TokenAt(s, k);
    || (i.Transfer? && i.account == k && i.dest != k && Terms(s, ctx, i).Ok?
        && Terms(s, ctx, i).value.1 != Some(i.authority.key) && a.delegate == Some(i.authority.key))
    || (i.Burn? && i.account == k && !a.OwnedBySystemOrIncinerator() && Get(s, i.mint).data.MintData?
        && PermanentDelegateOf(Get(s, i.mint).data.mint) != Some(i.authority.key)
            && a.delegate == Some(i.authority.key))
  }

  /** The instruction debits account `k` on the word of the mint's permanent delegate. */
  predicate ByPermanentDelegate(s: State, i: Instr, k: Pubkey)
    requires IsToken(s, k)
  {
    && (i.Transfer? || i.Burn?) && i.account == k
    && Get(s, TokenAt(s, k).mint).data.MintData?
    && PermanentDelegateOf(Get(s, TokenAt(s, k).mint).data.mint) == Some(i.authority.key)
  }

  /** Tokens moved out of `k` through the delegate. */
  function Spent(s: State, ctx: Ctx, i: Instr, k: Pubkey): nat
    requires IsToken(s, k)
  {
    if ByDelegate(s, ctx, i, k) then i.amount else 0
  }

  /** Instructions on `k` that set, drop or replace the allowance as a whole. */
  predicate ResetsAllowance(i: Instr, k: Pubkey) {
    || (i.Approve? && i.account == k)
    || (i.Revoke? && i.account == k)
    || (i.SetAuthority? && i.account == k && i.kind.AccountOwner?)
    || Closes(i, k)
  }

  predicate Closes(i: Instr, k: Pubkey) {
    i.CloseAccount? && i.account == k
  }

  /** Everything a successful instruction may do to token account `k`, from `a` to `b`. */
  ghost predicate Evolves(s: State, ctx: Ctx, i: Instr, k: Pubkey, b: Token)
    requires IsToken(s, k)
  {
    var a := TokenAt(s, k);
    && b.mint == a.mint && (b.native.Some? <==> a.native.Some?) && a.types <= b.types
    // the frozen flag: only the freeze authority's toggle
    && (b.frozen != a.frozen ==>
          i.ToggleFreeze? && i.account == k && a.native.None? && Thawable(s, a.mint, i.authority, i.signers))
    && (a.frozen ==> b.amount == a.amount && b.owner == a.owner && b.delegate == a.delegate
                     && b.delegatedAmount == a.delegatedAmount && b.closeAuthority == a.closeAuthority)
    // the owner: only a change of authority on an account that is neither immutable nor locked
    && (b.owner != a.owner ==> i.SetAuthority? && i.account == k && i.kind.AccountOwner?
                               && IMMUTABLE_OWNER !in a.types && !Locked(a))
    // the guard: only its toggle, outside other programs
    && (Locked(a) && !Locked(b) ==> i.ToggleCpiGuard? && i.account == k && !i.enable && !ctx.inCpi)
    && (b.lockCpi != a.lockCpi ==> !ctx.inCpi)
    && (a.GuardBlocks(ctx.inCpi) ==>
          && (b.delegate == a.delegate || b.delegate == None)
          && (b.closeAuthority == a.closeAuthority || b.closeAuthority == None))
    // debits: transfers and burns, on the word of the owner, the delegate or the permanent delegate
    && (b.amount < a.amount ==>
          && (i.Transfer? || i.Burn?) && i.account == k && a.amount - b.amount == i.amount
          && (a.GuardBlocks(ctx.inCpi) ==>
                || ByDelegate(s, ctx, i, k) || ByPermanentDelegate(s, i, k)
                || (i.Burn? && a.OwnedBySystemOrIncinerator())))
    // the allowance
    && (!ResetsAllowance(i, k) ==>
          && Spent(s, ctx, i, k) <= a.delegatedAmount && b.delegatedAmount == a.delegatedAmount - Spent(s, ctx, i, k)
          && b.delegate == if ByDelegate(s, ctx, i, k) && b.delegatedAmount == 0 then None else a.delegate)
    && (ByDelegate(s, ctx, i, k) ==> a.amount - b.amount == i.amount)
    && (i.Approve? && i.account == k ==> b.delegate == Some(i.delegate) && b.delegatedAmount == i.amount)
    && (i.Revoke? && i.account == k ==> b.delegate.None? && b.delegatedAmount == 0)
    && (b.closeAuthority != a.closeAuthority ==>
          i.SetAuthority? && i.account == k && (i.kind.AccountOwner? || i.kind.CloseAccountAuthority?))
    // a new owner is the one named, and starts without a delegate, on a native account without a close authority
    && (i.SetAuthority? && i.account == k && i.kind.AccountOwner? ==>
          && i.newAuthority == Some(b.owner)
          && b == a.(owner := b.owner, delegate := None, delegatedAmount := 0,
                     closeAuthority := if a.native.Some? then None else a.closeAuthority))
    && (i.SetAuthority? && i.account == k && !i.kind.AccountOwner? ==> b == a.(closeAuthority := i.newAuthority))
    // a toggle sets what it names
    && (i.ToggleFreeze? && i.account == k ==> b == a.(frozen := i.freeze))
    && (i.ToggleCpiGuard? && i.account == k ==> b == a.(lockCpi := i.enable, types := b.types))
    && (i.ToggleMemo? && i.account == k ==> b == a.(memoRequired := i.enable, types := b.types))
  }

  /** The mint names a freeze authority, and it agreed. */
  predicate Thawable(s: State, mintKey: Pubkey, authority: Signer, signers: seq<Signer>) {
    && Get(s, mintKey).data.MintData? && Get(s, mintKey).data.mint.freezeAuthority.Some?
    && Multisigs.ValidateOwner(s, Get(s, mintKey).data.mint.freezeAuthority.value, authority, signers).Ok?
  }

  /** A change that leaves the account as it was but for its amounts growing. */
  lemma EvolvesQuiet(s: State, ctx: Ctx, i: Instr, k: Pubkey, b: Token)
    requires IsToken(s, k)
    requires var a := TokenAt(s, k); b == a.(amount := b.amount, withheld := b.withheld) && b.amount >= a.amount
    requires b.amount == TokenAt(s, k).amount || !TokenAt(s, k).frozen
    requires !((i.Transfer? || i.Burn? || i.Approve? || i.Revoke? || i.SetAuthority?) && i.account == k)
    requires !((i.ToggleFreeze? || i.ToggleCpiGuard? || i.ToggleMemo?) && i.account == k)
    ensures Evolves(s, ctx, i, k, b)
  {
    hide Terms, Thawable, PermanentDelegateOf;
  }

  lemma EvolvesEdit(s: State, ctx: Ctx, i: Instr)
    requires (i.Approve? || i.Revoke? || i.ToggleFreeze?) && IsToken(s, i.account) && Process(s, ctx, i).Ok?
    ensures var i' := Get(Process(s, ctx, i).value, i.account);
            i'.owner == TOKEN_PROGRAM && i'.data.TokenData? && Evolves(s, ctx, i, i.account, i'.data.token)
  {
    hide Multisigs.ValidateOwner, L.CheckMint;
  }

  lemma EvolvesToggle(s: State, ctx: Ctx, i: Instr)
    requires (i.ToggleCpiGuard? || i.ToggleMemo?) && IsToken(s, i.account) && Process(s, ctx, i).Ok?
    ensures var i' := Get(Process(s, ctx, i).value, i.account);
            i'.owner == TOKEN_PROGRAM && i'.data.TokenData? && Evolves(s, ctx, i, i.account, i'.data.token)
  {
    hide Multisigs.ValidateOwner, InitExtension;
  }

  lemma EvolvesAuthority(s: State, ctx: Ctx, i: Instr)
    requires i.SetAuthority? && IsToken(s, i.account) && Process(s, ctx, i).Ok?
    ensures var i' := Get(Process(s, ctx, i).value, i.account);
            i'.owner == TOKEN_PROGRAM && i'.data.TokenData? && Evolves(s, ctx, i, i.account, i'.data.token)
  {
    hide Multisigs.ValidateOwner, L.SetMintAuthority;
  }

  /** Native accounts are never frozen, so synchronising never touches a frozen one. */
  lemma EvolvesSync(s: State, ctx: Ctx, i: Instr)
    requires Good(s) && i.SyncNative? && IsToken(s, i.account) && Process(s, ctx, i).Ok?
    ensures var i' := Get(Process(s, ctx, i).value, i.account);
            i'.owner == TOKEN_PROGRAM && i'.data.TokenData? && Evolves(s, ctx, i, i.account, i'.data.token)
  {
    GoodAt(s, i.account);
    EvolvesQuiet(s, ctx, i, i.account, Get(Process(s, ctx, i).value, i.account).data.token);
  }

  /** What the authorisation of a debit leaves of the allowance. */
  lemma DebitMeans(s: State, ctx: Ctx, a: Token, pd: Option<Pubkey>, authority: Signer, signers: seq<Signer>,
                   amount: u64, blocked: Error)
    requires L.AuthorizeDebit(s, ctx, a, pd, authority, signers, amount, true, blocked).Ok?
    ensures var a' := L.AuthorizeDebit(s, ctx, a, pd, authority, signers, amount, true, blocked).value;
            && a' == a.(delegate := a'.delegate, delegatedAmount := a'.delegatedAmount)
            && (if pd != Some(authority.key) && a.delegate == Some(authority.key) then
                  && amount <= a.delegatedAmount && a'.delegatedAmount == a.delegatedAmount - amount
                  && a'.delegate == if a'.delegatedAmount == 0 then None else a.delegate
                else a' == a)
            && (pd != Some(authority.key) && a.delegate != Some(authority.key) ==> !a.GuardBlocks(ctx.inCpi))
  {
    hide Multisigs.ValidateOwner;
  }

  /** A permanent delegate can only come from the account's own mint. */
  lemma TermsMean(s: State, ctx: Ctx, i: Instr)
    requires i.Transfer? && IsToken(s, i.account) && Terms(s, ctx, i).Ok?
    ensures Terms(s, ctx, i).value.1.Some? ==>
              var mi := Get(s, TokenAt(s, i.account).mint);
              mi.data.MintData? && PermanentDelegateOf(mi.data.mint) == Terms(s, ctx, i).value.1
  {
  }

  lemma EvolvesTransfer(s: State, ctx: Ctx, i: Instr, k: Pubkey)
    requires i.Transfer? && IsToken(s, k) && Process(s, ctx, i).Ok?
    ensures var i' := Get(Process(s, ctx, i).value, k);
            i'.owner == TOKEN_PROGRAM && i'.data.TokenData? && Evolves(s, ctx, i, k, i'.data.token)
  {
    hide Process, L.AuthorizeDebit, Terms;
    if i.account == i.dest {
      SelfTransfer(s, ctx, i);
    } else {
      var a', fee := TransferParts(s, ctx, i);
      if k == i.account {
        var a := TokenAt(s, k);
        TermsMean(s, ctx, i);
        DebitMeans(s, ctx, a, Terms(s, ctx, i).value.1, i.authority, i.signers, i.amount, CpiGuardTransferBlocked);
      } else {
        EvolvesQuiet(s, ctx, i, k, Get(Process(s, ctx, i).value, k).data.token);
      }
    }
  }

  lemma EvolvesSupply(s: State, ctx: Ctx, i: Instr, k: Pubkey)
    requires (i.MintTo? || i.Burn?) && IsToken(s, k) && Process(s, ctx, i).Ok?
    ensures var i' := Get(Process(s, ctx, i).value, k);
            i'.owner == TOKEN_PROGRAM && i'.data.TokenData? && Evolves(s, ctx, i, k, i'.data.token)
  {
    hide Process, L.AuthorizeDebit;
    if i.MintTo? {
      MintToParts(s, ctx, i);
      EvolvesQuiet(s, ctx, i, k, Get(Process(s, ctx, i).value, k).data.token);
    } else {
      var a' := BurnParts(s, ctx, i);
      if k == i.account {
        var a := TokenAt(s, k);
        if !a.OwnedBySystemOrIncinerator() {
          DebitMeans(s, ctx, a, PermanentDelegateOf(MintAt(s, i.mint)), i.authority, i.signers, i.amount,
                     CpiGuardBurnBlocked);
        }
      } else {
        EvolvesQuiet(s, ctx, i, k, Get(Process(s, ctx, i).value, k).data.token);
      }
    }
  }

  lemma EvolvesReallocate(s: State, ctx: Ctx, i: Instr, k: Pubkey)
    requires i.Reallocate? && IsToken(s, k) && Process(s, ctx, i).Ok?
    ensures var i' := Get(Process(s, ctx, i).value, k);
            i'.owner == TOKEN_PROGRAM && i'.data.TokenData? && Evolves(s, ctx, i, k, i'.data.token)
  {
    hide Multisigs.ValidateOwner, L.Grow, TryCalculateAccountLen;
    if Process(s, ctx, i).value != s {
      var needed := TryCalculateAccountLen(AccountBase, Get(s, i.account).data.token.types + i.newTypes).value;
      GrowKeeps(s, ctx, i.account, i.payer, needed, k);
    }
  }

  /** A reallocation keeps every token account but for the reserve and the lamports. */
  lemma GrowKeeps(s: State, ctx: Ctx, k: Pubkey, payer: Signer, needed: nat, j: Pubkey)
    requires Get(s, k).data.TokenData? && IsToken(s, j) && L.Grow(s, ctx, k, payer, needed).Ok?
    ensures var i' := Get(L.Grow(s, ctx, k, payer, needed).value, j);
            && i'.owner == TOKEN_PROGRAM && i'.data.TokenData?
            && i'.data.token == TokenAt(s, j).(native := i'.data.token.native)
            && (i'.data.token.native.Some? <==> TokenAt(s, j).native.Some?)
  {
    hide L.SystemTransfer;
    var i := Get(s, k);
    var a := i.data.token;
    var grown := s[k := i.(dataLen := needed)];
    var reserve := ctx.rent(needed);
    var current := i.lamports - (if a.native.Some? then a.amount else 0);
    if reserve > current {
      SystemTransferKeepsData(grown, payer, k, reserve - current, j);
      SystemTransferKeepsData(grown, payer, k, reserve - current, k);
    }
  }

  lemma EvolvesClose(s: State, ctx: Ctx, i: Instr, k: Pubkey)
    requires i.CloseAccount? && IsToken(s, k) && Process(s, ctx, i).Ok?
    ensures var i' := Get(Process(s, ctx, i).value, k);
            if i.account == k then i' == ABSENT
            else i'.owner == TOKEN_PROGRAM && i'.data.TokenData? && Evolves(s, ctx, i, k, i'.data.token)
  {
    hide Process, L.CheckCloseToken, L.CheckCloseMint;
    CloseParts(s, ctx, i);
    if i.account != k {
      EvolvesQuiet(s, ctx, i, k, TokenAt(s, k));
    }
  }

  lemma EvolvesLamports(s: State, ctx: Ctx, i: Instr, k: Pubkey)
    requires (i.WithdrawExcessLamports? || i.CreateNativeMint?) && IsToken(s, k) && Process(s, ctx, i).Ok?
    ensures var i' := Get(Process(s, ctx, i).value, k);
            i'.owner == TOKEN_PROGRAM && i'.data.TokenData? && Evolves(s, ctx, i, k, i'.data.token)
  {
    hide Multisigs.ValidateOwner, L.CheckWithdrawExcess, L.SystemTransfer;
    if i.CreateNativeMint? {
      var have, reserve := Get(s, NATIVE_MINT).lamports, ctx.rent(MINT_LEN);
      SystemTransferKeepsData(s, i.payer, NATIVE_MINT, if reserve > have then reserve - have else 0, k);
    }
    EvolvesQuiet(s, ctx, i, k, TokenAt(s, k));
  }

  lemma {:induction false} HarvestKeeps(s: State, mintKey: Pubkey, sources: seq<Pubkey>, k: Pubkey)
    requires IsToken(s, k) && Get(s, mintKey).data.MintData? && L.HarvestAll(s, mintKey, sources).Ok?
    ensures var i' := Get(L.HarvestAll(s, mintKey, sources).value, k);
            && i'.owner == TOKEN_PROGRAM && i'.data.TokenData?
            && i'.data.token == TokenAt(s, k).(withheld := i'.data.token.withheld)
  {
    if sources != [] {
      HarvestKeeps(s, mintKey, sources[..|sources| - 1], k);
    }
  }

  lemma {:induction false} WithdrawKeeps(s: State, mintKey: Pubkey, dest: Pubkey, sources: seq<Pubkey>, k: Pubkey)
    requires IsToken(s, k) && Get(s, dest).data.TokenData? && L.WithdrawAll(s, mintKey, dest, sources).Ok?
    ensures var i' := Get(L.WithdrawAll(s, mintKey, dest, sources).value, k);
            && i'.owner == TOKEN_PROGRAM && i'.data.TokenData?
            && i'.data.token == TokenAt(s, k).(withheld := i'.data.token.withheld, amount := i'.data.token.amount)
            && i'.data.token.amount >= TokenAt(s, k).amount
            && (k != dest ==> i'.data.token.amount == TokenAt(s, k).amount)
  {
    if sources != [] {
      WithdrawKeeps(s, mintKey, dest, sources[..|sources| - 1], k);
    }
  }

  lemma EvolvesFees(s: State, ctx: Ctx, i: Instr, k: Pubkey)
    requires i.WithdrawWithheldFromMint? || i.HarvestWithheldToMint? || i.WithdrawWithheldFromAccounts?
    requires IsToken(s, k) && Process(s, ctx, i).Ok?
    ensures var i' := Get(Process(s, ctx, i).value, k);
            i'.owner == TOKEN_PROGRAM && i'.data.TokenData? && Evolves(s, ctx, i, k, i'.data.token)
  {
    hide L.CheckWithdrawal, L.HarvestAll, L.WithdrawAll, Evolves;
    if i.HarvestWithheldToMint? {
      HarvestKeeps(s, i.mint, i.sources, k);
    } else {
      WithdrawalChecked(s, i.mint, i.dest, i.authority, i.signers);
      if i.WithdrawWithheldFromAccounts? {
        WithdrawKeeps(s, i.mint, i.dest, i.sources, k);
      }
    }
    EvolvesQuiet(s, ctx, i, k, Get(Process(s, ctx, i).value, k).data.token);
  }

  /** An instruction that sets up an account or changes a mint cannot have a token account as its target. */
  lemma OtherTargets(s: State, ctx: Ctx, i: Instr)
    requires Target(i).Some? && Process(s, ctx, i).Ok?
    requires i.InitializeMint? || i.InitializeMintCloseAuthority? || i.InitializeNonTransferableMint?
             || i.InitializePermanentDelegate? || i.InitializeDefaultAccountState? || i.InitializeTransferFeeConfig?
             || i.InitializeAuthorityExtension? || i.InitializeImmutableOwner? || i.InitializeMultisig?
             || i.InitializeAccount? || i.UpdateDefaultAccountState? || i.SetTransferFee?
    ensures !Get(s, Target(i).value).data.TokenData?
  {
    hide Multisigs.ValidateOwner, InitExtension, InitExtensions, TryCalculateAccountLen, ValidMintCombination,
         RequiredInitAccountExtensions;
  }

  lemma EvolvesTarget(s: State, ctx: Ctx, i: Instr, k: Pubkey)
    requires Good(s) && Target(i).Some? && IsToken(s, k) && Process(s, ctx, i).Ok?
    ensures var i' := Get(Process(s, ctx, i).value, k);
            i'.owner == TOKEN_PROGRAM && i'.data.TokenData? && Evolves(s, ctx, i, k, i'.data.token)
  {
    hide Process, Good, Evolves;
    SingleTarget(s, ctx, i);
    if Target(i) != Some(k) {
      EvolvesQuiet(s, ctx, i, k, TokenAt(s, k));
    } else if i.Approve? || i.Revoke? || i.ToggleFreeze? {
      EvolvesEdit(s, ctx, i);
    } else if i.ToggleCpiGuard? || i.ToggleMemo? {
      EvolvesToggle(s, ctx, i);
    } else if i.SetAuthority? {
      EvolvesAuthority(s, ctx, i);
    } else if i.SyncNative? {
      EvolvesSync(s, ctx, i);
    } else {
      OtherTargets(s, ctx, i);
    }
  }

  /** One successful instruction: a token account is closed by it, or evolves. */
  lemma TokenStep(s: State, ctx: Ctx, i: Instr, k: Pubkey)
    requires Good(s) && IsToken(s, k) && Process(s, ctx, i).Ok?
    ensures var s' := Process(s, ctx, i).value;
            if Closes(i, k) then Get(s', k) == ABSENT
            else IsToken(s', k) && Evolves(s, ctx, i, k, TokenAt(s', k))
  {
    hide Process, Good, Evolves;
    if Target(i).Some? {
      EvolvesTarget(s, ctx, i, k);
    } else {
      match i
      case Transfer(_, _, _, _, _, _, _) => EvolvesTransfer(s, ctx, i, k);
      case MintTo(_, _, _, _, _, _) => EvolvesSupply(s, ctx, i, k);
      case Burn(_, _, _, _, _, _) => EvolvesSupply(s, ctx, i, k);
      case CloseAccount(_, _, _, _) => EvolvesClose(s, ctx, i, k);
      case WithdrawExcessLamports(_, _, _, _) => EvolvesLamports(s, ctx, i, k);
      case Reallocate(_, _, _, _, _) => EvolvesReallocate(s, ctx, i, k);
      case CreateNativeMint(_) => EvolvesLamports(s, ctx, i, k);
      case WithdrawWithheldFromMint(_, _, _, _) => EvolvesFees(s, ctx, i, k);
      case HarvestWithheldToMint(_, _) => EvolvesFees(s, ctx, i, k);
      case WithdrawWithheldFromAccounts(_, _, _, _, _) => EvolvesFees(s, ctx, i, k);
    }
  }

  // ------------------------------------------------------------------ mints

  /** The authority of the given kind that a mint has, in its base state or an extension. */
  function AuthorityAt(m: Mint, kind: L.AuthorityType): Option<Pubkey> {
    match kind
    case MintTokens => m.authority
    case FreezeAccountAuthority => m.freezeAuthority
    case CloseMint => if MINT_CLOSE_AUTHORITY in m.types then m.ext.closeAuthority else None
    case TransferFeeConfig => if TRANSFER_FEE_CONFIG in m.types then m.ext.fee.configAuthority else None
    case WithheldWithdraw => if TRANSFER_FEE_CONFIG in m.types then m.ext.fee.withdrawAuthority else None
    case PermanentDelegate => PermanentDelegateOf(m)
    case _ =>
      var t := L.PlainAuthorityType(kind);
      if t.Some? && t.value in m.types && t.value in m.ext.authorities then m.ext.authorities[t.value] else None
  }

  /** An authority changes only by an instruction for its kind, from one that is set to the one asked for. */
  ghost predicate KeepsAuthorities(i: Instr, m: Pubkey, x: Mint, y: Mint) {
    forall kind :: AuthorityAt(y, kind) != AuthorityAt(x, kind) ==>
      i.SetAuthority? && i.account == m && i.kind == kind && AuthorityAt(x, kind).Some?
          && AuthorityAt(y, kind) == i.newAuthority
  }

  /** Everything a successful instruction may do to mint `m`, from `x` to `y`. */
  ghost predicate MintEvolves(i: Instr, m: Pubkey, x: Mint, y: Mint) {
    && y.types == x.types && y.decimals == x.decimals
    && (y.supply > x.supply ==> i.MintTo? && i.mint == m && x.authority.Some?)
    && KeepsAuthorities(i, m, x, y)
    && (y.ext.defaultFrozen != x.ext.defaultFrozen ==> i.UpdateDefaultAccountState? && i.mint == m)
  }

  /** Of two states of a mint: one authority has been replaced, and nothing else. */
  ghost predicate OnlyReplaces(m: Mint, m': Mint, kind: L.AuthorityType, newAuthority: Option<Pubkey>) {
    && (forall k :: AuthorityAt(m', k) == if k == kind then newAuthority else AuthorityAt(m, k))
    && m'.types == m.types && m'.decimals == m.decimals && m'.supply == m.supply
    && m'.ext.defaultFrozen == m.ext.defaultFrozen && m'.ext.hookProgram == m.ext.hookProgram
    && m'.ext.fee == m.ext.fee.(configAuthority := m'.ext.fee.configAuthority,
                                withdrawAuthority := m'.ext.fee.withdrawAuthority)
  }

  lemma SetOwnFieldMeans(s: State, m: Mint, kind: L.AuthorityType, newAuthority: Option<Pubkey>, authority: Signer,
                         signers: seq<Signer>)
    requires || kind.MintTokens? || kind.FreezeAccountAuthority? || kind.CloseMint? || kind.TransferFeeConfig?
             || kind.WithheldWithdraw? || kind.PermanentDelegate?
    requires L.SetMintAuthority(s, m, kind, newAuthority, authority, signers).Ok?
    ensures AuthorityAt(m, kind).Some? && Multisigs.ValidateOwner(s, AuthorityAt(m, kind).value, authority, signers).Ok?
    ensures OnlyReplaces(m, L.SetMintAuthority(s, m, kind, newAuthority, authority, signers).value, kind, newAuthority)
  {
    hide Multisigs.ValidateOwner, L.ReplaceExtensionAuthority, L.PlainAuthorityType;
  }

  lemma SetExtensionMeans(s: State, m: Mint, kind: L.AuthorityType, newAuthority: Option<Pubkey>, authority: Signer,
                          signers: seq<Signer>)
    requires !kind.MintTokens? && !kind.FreezeAccountAuthority? && !kind.CloseMint? && !kind.TransferFeeConfig?
    requires !kind.WithheldWithdraw? && !kind.PermanentDelegate?
    requires L.SetMintAuthority(s, m, kind, newAuthority, authority, signers).Ok?
    ensures AuthorityAt(m, kind).Some? && Multisigs.ValidateOwner(s, AuthorityAt(m, kind).value, authority, signers).Ok?
    ensures OnlyReplaces(m, L.SetMintAuthority(s, m, kind, newAuthority, authority, signers).value, kind, newAuthority)
  {
    hide Multisigs.ValidateOwner, L.ReplaceExtensionAuthority, L.PlainAuthorityType;
    var t := L.PlainAuthorityType(kind).value;
    forall k | k != kind
      ensures AuthorityAt(WithAuthority(m, t, newAuthority), k) == AuthorityAt(m, k)
    {
      PlainTypesDiffer(kind, k);
      OthersKept(m, t, newAuthority, k);
    }
  }

  function WithAuthority(m: Mint, t: ExtensionType, o: Option<Pubkey>): Mint {
    m.(ext := m.ext.(authorities := m.ext.authorities[t := o]))
  }

  lemma OthersKept(m: Mint, t: ExtensionType, o: Option<Pubkey>, k: L.AuthorityType)
    requires L.PlainAuthorityType(k) != Some(t)
    ensures AuthorityAt(WithAuthority(m, t, o), k) == AuthorityAt(m, k)
  {
    hide L.PlainAuthorityType;
  }

  lemma PlainTypesDiffer(k1: L.AuthorityType, k2: L.AuthorityType)
    requires k1 != k2 && L.PlainAuthorityType(k1).Some?
    ensures L.PlainAuthorityType(k1) != L.PlainAuthorityType(k2)
  {
  }

  /**
   Setting an authority of a mint: the mint must have one of that kind, which agrees, and exactly that one is replaced.
   */
  lemma SetMintAuthorityMeans(s: State, m: Mint, kind: L.AuthorityType, newAuthority: Option<Pubkey>, authority: Signer,
                              signers: seq<Signer>)
    requires L.SetMintAuthority(s, m, kind, newAuthority, authority, signers).Ok?
    ensures AuthorityAt(m, kind).Some? && Multisigs.ValidateOwner(s, AuthorityAt(m, kind).value, authority, signers).Ok?
    ensures OnlyReplaces(m, L.SetMintAuthority(s, m, kind, newAuthority, authority, signers).value, kind, newAuthority)
  {
    hide Multisigs.ValidateOwner, L.SetMintAuthority, AuthorityAt;
    match kind
    case MintTokens | FreezeAccountAuthority | CloseMint | TransferFeeConfig | WithheldWithdraw | PermanentDelegate =>
      SetOwnFieldMeans(s, m, kind, newAuthority, authority, signers);
    case _ =>
      SetExtensionMeans(s, m, kind, newAuthority, authority, signers);
  }

  lemma MintEvolvesAuthority(s: State, ctx: Ctx, i: Instr)
    requires i.SetAuthority? && IsMint(s, i.account) && Process(s, ctx, i).Ok?
    ensures var i' := Get(Process(s, ctx, i).value, i.account);
            i'.owner == TOKEN_PROGRAM && i'.data.MintData?
                && MintEvolves(i, i.account, MintAt(s, i.account), i'.data.mint)
  {
    hide Multisigs.ValidateOwner, L.SetTokenAuthority, L.SetMintAuthority, AuthorityAt;
    SetMintAuthorityMeans(s, MintAt(s, i.account), i.kind, i.newAuthority, i.authority, i.signers);
  }

  lemma MintEvolvesTarget(s: State, ctx: Ctx, i: Instr, m: Pubkey)
    requires Target(i) == Some(m) && IsMint(s, m) && Process(s, ctx, i).Ok?
    ensures var i' := Get(Process(s, ctx, i).value, m);
            i'.owner == TOKEN_PROGRAM && i'.data.MintData? && MintEvolves(i, m, MintAt(s, m), i'.data.mint)
  {
    hide Multisigs.ValidateOwner, InitExtension, InitExtensions, TryCalculateAccountLen, ValidMintCombination,
         RequiredInitAccountExtensions, L.SetTokenAuthority, L.SetMintAuthority, L.CheckMint;
    if i.SetAuthority? {
      MintEvolvesAuthority(s, ctx, i);
    }
  }

  lemma {:induction false} HarvestKeepsMint(s: State, mintKey: Pubkey, sources: seq<Pubkey>, m: Pubkey)
    requires IsMint(s, m) && Get(s, mintKey).data.MintData? && L.HarvestAll(s, mintKey, sources).Ok?
    ensures var i' := Get(L.HarvestAll(s, mintKey, sources).value, m);
            && i'.owner == TOKEN_PROGRAM && i'.data.MintData?
            && var ext := MintAt(s, m).ext;
               i'.data.mint == MintAt(s, m).(ext := ext.(fee := ext.fee.(withheld := i'.data.mint.ext.fee.withheld)))
  {
    if sources != [] {
      HarvestKeepsMint(s, mintKey, sources[..|sources| - 1], m);
    }
  }

  lemma {:induction false} WithdrawKeepsMint(s: State, mintKey: Pubkey, dest: Pubkey, sources: seq<Pubkey>, m: Pubkey)
    requires IsMint(s, m) && Get(s, dest).data.TokenData? && L.WithdrawAll(s, mintKey, dest, sources).Ok?
    ensures Get(L.WithdrawAll(s, mintKey, dest, sources).value, m) == Get(s, m)
  {
    if sources != [] {
      WithdrawKeepsMint(s, mintKey, dest, sources[..|sources| - 1], m);
    }
  }

  lemma MintEvolvesFees(s: State, ctx: Ctx, i: Instr, m: Pubkey)
    requires i.WithdrawWithheldFromMint? || i.HarvestWithheldToMint? || i.WithdrawWithheldFromAccounts?
    requires IsMint(s, m) && Process(s, ctx, i).Ok?
    ensures var i' := Get(Process(s, ctx, i).value, m);
            i'.owner == TOKEN_PROGRAM && i'.data.MintData? && MintEvolves(i, m, MintAt(s, m), i'.data.mint)
  {
    hide L.CheckWithdrawal, L.HarvestAll, L.WithdrawAll;
    if i.HarvestWithheldToMint? {
      HarvestKeepsMint(s, i.mint, i.sources, m);
    } else {
      WithdrawalChecked(s, i.mint, i.dest, i.authority, i.signers);
      if i.WithdrawWithheldFromAccounts? { WithdrawKeepsMint(s, i.mint, i.dest, i.sources, m); }
    }
  }

  /** A reallocation keeps the owner of every account, and the data of every account that is not a token account. */
  lemma GrowKeepsOthers(s: State, ctx: Ctx, k: Pubkey, payer: Signer, needed: nat, m: Pubkey)
    requires Get(s, k).data.TokenData? && L.Grow(s, ctx, k, payer, needed).Ok?
    ensures var i' := Get(L.Grow(s, ctx, k, payer, needed).value, m);
            i'.owner == Get(s, m).owner && (!Get(s, m).data.TokenData? ==> i'.data == Get(s, m).data)
  {
    hide L.SystemTransfer;
    var i := Get(s, k);
    var a := i.data.token;
    var grown := s[k := i.(dataLen := needed)];
    var reserve := ctx.rent(needed);
    var current := i.lamports - (if a.native.Some? then a.amount else 0);
    if reserve > current {
      SystemTransferKeepsData(grown, payer, k, reserve - current, m);
      SystemTransferKeepsData(grown, payer, k, reserve - current, k);
    }
  }

  lemma KeptByLamports(s: State, ctx: Ctx, i: Instr, m: Pubkey)
    requires (i.WithdrawExcessLamports? || i.CreateNativeMint? || i.Reallocate?) && Process(s, ctx, i).Ok?
    requires Get(s, m).owner == TOKEN_PROGRAM || m != NATIVE_MINT
    ensures var i' := Get(Process(s, ctx, i).value, m);
            i'.owner == Get(s, m).owner && (!Get(s, m).data.TokenData? ==> i'.data == Get(s, m).data)
  {
    hide Multisigs.ValidateOwner, L.CheckWithdrawExcess, L.SystemTransfer, L.Grow, TryCalculateAccountLen;
    if i.CreateNativeMint? {
      var have, reserve := Get(s, NATIVE_MINT).lamports, ctx.rent(MINT_LEN);
      var diff := if reserve > have then reserve - have else 0;
      SystemTransferKeepsData(s, i.payer, NATIVE_MINT, diff, m);
    } else if i.Reallocate? && Process(s, ctx, i).value != s {
      var needed := TryCalculateAccountLen(AccountBase, Get(s, i.account).data.token.types + i.newTypes).value;
      GrowKeepsOthers(s, ctx, i.account, i.payer, needed, m);
    }
  }

  lemma MintKeptByMoves(s: State, ctx: Ctx, i: Instr, m: Pubkey)
    requires (i.Transfer? || i.MintTo? || i.Burn? || i.CloseAccount?) && IsMint(s, m) && Process(s, ctx, i).Ok?
    ensures var i' := Get(Process(s, ctx, i).value, m);
            if Closes(i, m) then i' == ABSENT && MintAt(s, m).supply == 0
            else i'.owner == TOKEN_PROGRAM && i'.data.MintData? && MintEvolves(i, m, MintAt(s, m), i'.data.mint)
  {
    hide Process, L.AuthorizeDebit, BurnDebit, Terms, L.CheckCloseMint, L.CheckCloseToken;
    match i
    case Transfer(_, _, _, _, _, _, _) =>
      if i.account == i.dest { SelfTransfer(s, ctx, i); } else { var a', fee := TransferParts(s, ctx, i); }
    case MintTo(_, _, _, _, _, _) => MintToParts(s, ctx, i);
    case Burn(_, _, _, _, _, _) => var a' := BurnParts(s, ctx, i);
    case CloseAccount(_, _, _, _) =>
      CloseParts(s, ctx, i);
      if i.account == m { CheckCloseMintMeans(s, MintAt(s, m), i.authority, i.signers); }
  }

  /** One successful instruction: a mint is closed by it at zero supply, or evolves. */
  lemma MintStep(s: State, ctx: Ctx, i: Instr, m: Pubkey)
    requires IsMint(s, m) && Process(s, ctx, i).Ok?
    ensures var s' := Process(s, ctx, i).value;
            if Closes(i, m) then Get(s', m) == ABSENT && MintAt(s, m).supply == 0
            else IsMint(s', m) && MintEvolves(i, m, MintAt(s, m), MintAt(s', m))
  {
    hide Process;
    if Target(i).Some? {
      SingleTarget(s, ctx, i);
      if Target(i) == Some(m) { MintEvolvesTarget(s, ctx, i, m); }
    } else {
      match i
      case Transfer(_, _, _, _, _, _, _) => MintKeptByMoves(s, ctx, i, m);
      case MintTo(_, _, _, _, _, _) => MintKeptByMoves(s, ctx, i, m);
      case Burn(_, _, _, _, _, _) => MintKeptByMoves(s, ctx, i, m);
      case CloseAccount(_, _, _, _) => MintKeptByMoves(s, ctx, i, m);
      case WithdrawExcessLamports(_, _, _, _) => KeptByLamports(s, ctx, i, m);
      case Reallocate(_, _, _, _, _) => KeptByLamports(s, ctx, i, m);
      case CreateNativeMint(_) => KeptByLamports(s, ctx, i, m);
      case WithdrawWithheldFromMint(_, _, _, _) => MintEvolvesFees(s, ctx, i, m);
      case HarvestWithheldToMint(_, _) => MintEvolvesFees(s, ctx, i, m);
      case WithdrawWithheldFromAccounts(_, _, _, _, _) => MintEvolvesFees(s, ctx, i, m);
    }
  }

  // ------------------------------------------------------------------ accounts of neither kind

  /** An account of the program that is neither a token account nor a mint: a multisig, or not initialised yet. */
  predicate IsPassive(s: State, k: Pubkey) {
    Get(s, k).owner == TOKEN_PROGRAM && !Get(s, k).data.TokenData? && !Get(s, k).data.MintData?
  }

  predicate SameData(s: State, s': State, k: Pubkey) {
    Get(s', k).owner == Get(s, k).owner && Get(s', k).data == Get(s, k).data
  }

  lemma {:induction false} HarvestSparesPassive(s: State, mintKey: Pubkey, sources: seq<Pubkey>, k: Pubkey)
    requires IsPassive(s, k) && Get(s, mintKey).data.MintData? && L.HarvestAll(s, mintKey, sources).Ok?
    ensures SameData(s, L.HarvestAll(s, mintKey, sources).value, k)
  {
    if sources != [] { HarvestSparesPassive(s, mintKey, sources[..|sources| - 1], k); }
  }

  lemma {:induction false} WithdrawSparesPassive(s: State, mintKey: Pubkey, dest: Pubkey, sources: seq<Pubkey>,
                                                 k: Pubkey)
    requires IsPassive(s, k) && Get(s, dest).data.TokenData? && L.WithdrawAll(s, mintKey, dest, sources).Ok?
    ensures SameData(s, L.WithdrawAll(s, mintKey, dest, sources).value, k)
  {
    if sources != [] { WithdrawSparesPassive(s, mintKey, dest, sources[..|sources| - 1], k); }
  }

  lemma FeesSparePassive(s: State, ctx: Ctx, i: Instr, k: Pubkey)
    requires i.WithdrawWithheldFromMint? || i.HarvestWithheldToMint? || i.WithdrawWithheldFromAccounts?
    requires IsPassive(s, k) && Process(s, ctx, i).Ok?
    ensures SameData(s, Process(s, ctx, i).value, k)
  {
    hide L.CheckWithdrawal, L.HarvestAll, L.WithdrawAll;
    if i.HarvestWithheldToMint? {
      HarvestSparesPassive(s, i.mint, i.sources, k);
    } else {
      WithdrawalChecked(s, i.mint, i.dest, i.authority, i.signers);
      if i.WithdrawWithheldFromAccounts? { WithdrawSparesPassive(s, i.mint, i.dest, i.sources, k); }
    }
  }

  lemma MovesSparePassive(s: State, ctx: Ctx, i: Instr, k: Pubkey)
    requires (i.Transfer? || i.MintTo? || i.Burn? || i.CloseAccount?) && IsPassive(s, k) && Process(s, ctx, i).Ok?
    ensures SameData(s, Process(s, ctx, i).value, k)
  {
    hide Process, L.AuthorizeDebit, BurnDebit, Terms, L.CheckCloseMint, L.CheckCloseToken;
    match i
    case Transfer(_, _, _, _, _, _, _) =>
      if i.account == i.dest { SelfTransfer(s, ctx, i); } else { var a', fee := TransferParts(s, ctx, i); }
    case MintTo(_, _, _, _, _, _) => MintToParts(s, ctx, i);
    case Burn(_, _, _, _, _, _) => var a' := BurnParts(s, ctx, i);
    case CloseAccount(_, _, _, _) => CloseParts(s, ctx, i);
  }

  /** Only an instruction with a single target can change the data of such an account. */
  lemma PassiveStep(s: State, ctx: Ctx, i: Instr, k: Pubkey)
    requires Target(i) != Some(k) && IsPassive(s, k) && Process(s, ctx, i).Ok?
    ensures SameData(s, Process(s, ctx, i).value, k)
  {
    hide Process;
    if Target(i).Some? {
      SingleTarget(s, ctx, i);
    } else if i.WithdrawWithheldFromMint? || i.HarvestWithheldToMint? || i.WithdrawWithheldFromAccounts? {
      FeesSparePassive(s, ctx, i, k);
    } else if i.WithdrawExcessLamports? || i.CreateNativeMint? || i.Reallocate? {
      KeptByLamports(s, ctx, i, k);
    } else {
      MovesSparePassive(s, ctx, i, k);
    }
  }
}
