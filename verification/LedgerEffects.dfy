/**
 What an instruction leaves: every record it changes, field by field, and with `LedgerConditions` exactly when. What
 follows for a frozen account and for a native one stands at the end.
 */
module LedgerEffects {
  import opened Bytes
  import opened Common
  import opened ExtensionTypes
  import opened TransferFees
  import opened LedgerState
  import opened LedgerRuns
  import opened LedgerGood
  import opened LedgerBalance
  import opened LedgerBounds
  import opened LedgerTokens
  import opened LedgerTheorems
  import opened LedgerConditions
  import opened LedgerWithheld
  import Multisigs
  import L = Ledger

  // ------------------------------------------------------------------ success, for every instruction

  /** Everything a caller must see to. */
  ghost predicate Allowed(s: State, ctx: Ctx, i: Instr) {
    if i.Transfer? then MayTransfer(s, ctx, i)
    else if i.MintTo? then MayMint(s, i) && MintAt(s, i.mint).supply + i.amount <= U64_MAX
    else if i.Burn? then MayBurn(s, ctx, i)
    else if i.CloseAccount? then MayClose(s, ctx, i)
    else if i.InitializeMint? || i.InitializeAccount? || i.InitializeMultisig? || i.InitializeImmutableOwner? then
      MayInitialize(s, ctx, i)
    else if ExtensionOf(i).Some? then MayExtend(s, i)
    else if i.SetAuthority? then MaySetAuthority(s, ctx, i)
    else if i.UpdateDefaultAccountState? || i.SetTransferFee? then MayEditMint(s, i)
    else if i.WithdrawExcessLamports? || i.CreateNativeMint? then MayMoveLamports(s, ctx, i)
    else if i.Reallocate? then MayReallocate(s, ctx, i)
    else if i.WithdrawWithheldFromMint? || i.HarvestWithheldToMint?
        || i.WithdrawWithheldFromAccounts? then MayTake(s, i)
    else MayEdit(s, ctx, i)
  }

  /** In a reachable state an instruction succeeds if and only if it is allowed. */
  lemma SucceedsIff(s: State, ctx: Ctx, i: Instr)
    requires Inv(s)
    ensures Process(s, ctx, i).Ok? <==> Allowed(s, ctx, i)
  {
    hide Process, Inv, MayTransfer, MayMint, MayBurn, MayClose, MayInitialize, MayExtend, MaySetAuthority, MayEditMint,
         MayMoveLamports, MayReallocate, MayTake, MayEdit;
    if i.Transfer? { TransferIff(s, ctx, i); }
    else if i.MintTo? { MintToIff(s, ctx, i); }
    else if i.Burn? { BurnIff(s, ctx, i); }
    else if i.CloseAccount? { CloseIff(s, ctx, i); }
    else if i.InitializeMint? || i.InitializeAccount? || i.InitializeMultisig? || i.InitializeImmutableOwner? {
      InitializeIff(s, ctx, i);
    }
    else if ExtensionOf(i).Some? { ExtendIff(s, ctx, i); }
    else if i.SetAuthority? { SetAuthorityIff(s, ctx, i); }
    else if i.UpdateDefaultAccountState? || i.SetTransferFee? { EditMintIff(s, ctx, i); }
    else if i.WithdrawExcessLamports? || i.CreateNativeMint? { InvGood(s); MoveLamportsIff(s, ctx, i); }
    else if i.Reallocate? { ReallocateIff(s, ctx, i); }
    else if i.WithdrawWithheldFromMint? || i.HarvestWithheldToMint? || i.WithdrawWithheldFromAccounts? {
      TakeIff(s, ctx, i);
    }
    else { EditIff(s, ctx, i); }
  }

  // ------------------------------------------------------------------ new accounts

  /** The record of a token account at its initialisation. */
  predicate StartsAs(t: Token, i: Instr, x: Info, m: Mint, reserve: nat)
    requires i.InitializeAccount? && x.data.Blank?
  {
    && t.owner == i.owner && t.mint == i.mint && t.delegate.None? && t.delegatedAmount == 0 && t.closeAuthority.None?
    && t.withheld == 0 && !t.lockCpi && !t.memoRequired
    && (t.frozen <==> DEFAULT_ACCOUNT_STATE in m.types && m.ext.defaultFrozen)
    && t.types == WithAll(x.data.types, RequiredInitAccountExtensions(m.types))
    && if i.mint == NATIVE_MINT then t.native == Some(reserve) && reserve + t.amount == x.lamports
       else t.native.None? && t.amount == 0
  }

  /**
   Initialising an account: its record starts as the caller named it, without delegation, with the extensions the mint
   requires; and a native one holds the lamports above the rent as tokens.
   */
  lemma NewAccountLeaves(s: State, ctx: Ctx, i: Instr)
    requires i.InitializeAccount? && Process(s, ctx, i).Ok?
    ensures IsMint(s, i.mint) && Get(s, i.account).data.Blank?
    ensures var x, x' := Get(s, i.account), Get(Process(s, ctx, i).value, i.account);
            && x'.data.TokenData? && x' == x.(data := x'.data)
            && StartsAs(x'.data.token, i, x, MintAt(s, i.mint), ctx.rent(x.dataLen))
    ensures forall k :: k != i.account ==> Get(Process(s, ctx, i).value, k) == Get(s, k)
  {
    hide InitExtensions, TryCalculateAccountLen, WithAll, RequiredInitAccountExtensions;
    var x := Get(s, i.account);
    ExtensionsFit(x.dataLen, x.data.types, RequiredInitAccountExtensions(Get(s, i.mint).data.mint.types));
  }

  /** A new native account is in balance: synchronising it changes nothing. */
  lemma NewNativeIsSynchronised(s: State, ctx: Ctx, i: Instr, ctx': Ctx)
    requires i.InitializeAccount? && i.mint == NATIVE_MINT && Commits(s, ctx, i)
    requires Get(s, i.account).owner == TOKEN_PROGRAM
    ensures Process(Process(s, ctx, i).value, ctx', SyncNative(i.account)) == Ok(Process(s, ctx, i).value)
  {
    hide L.InitializeAccount, RuntimeAccepts, WithAll, RequiredInitAccountExtensions;
    NewAccountLeaves(s, ctx, i);
    NothingStored(Process(s, ctx, i).value, i.account);
  }

  lemma NothingStored(s: State, k: Pubkey)
    requires k in s && s[k].data.TokenData?
    ensures s[k := s[k].(data := TokenData(s[k].data.token))] == s
  {
  }

  /** A new multisig holds the keys named, in their order, and nothing behind them. */
  lemma NewMultisigLeaves(s: State, ctx: Ctx, i: Instr)
    requires i.InitializeMultisig? && Process(s, ctx, i).Ok?
    ensures var x, x' := Get(s, i.account), Get(Process(s, ctx, i).value, i.account);
            && x'.data.MultisigData? && x' == x.(data := x'.data)
            && var y := x'.data.multisig;
               && y.m == i.m && y.n == |i.keys| && |y.signers| == MAX_SIGNERS && i.keys <= y.signers
               && forall p :: |i.keys| <= p < MAX_SIGNERS ==> y.signers[p] == 0
    ensures forall k :: k != i.account ==> Get(Process(s, ctx, i).value, k) == Get(s, k)
  {
  }

  /** Making the owner immutable adds that extension, once, to those held. */
  lemma ImmutableOwnerLeaves(s: State, ctx: Ctx, i: Instr)
    requires i.InitializeImmutableOwner? && Process(s, ctx, i).Ok?
    ensures var x := Get(s, i.account);
            && x.data.Blank?
            && Process(s, ctx, i).value ==
               s[i.account := x.(data := Blank(With(x.data.types, IMMUTABLE_OWNER), x.data.ext))]
  {
    hide InitExtension;
    ExtensionFits(Get(s, i.account).dataLen, Get(s, i.account).data.types, IMMUTABLE_OWNER);
  }

  // ------------------------------------------------------------------ changes of one record

  /** The record of a token account after an instruction on it alone. */
  function Edited(a: Token, lamports: u64, i: Instr): Token
    requires i.Approve? || i.Revoke? || i.ToggleFreeze? || i.ToggleCpiGuard? || i.ToggleMemo? || i.SyncNative?
    requires i.SyncNative? ==> a.native.Some? && a.native.value <= lamports
  {
    match i
    case Approve(_, _, delegate, _, _, amount) => a.(delegate := Some(delegate), delegatedAmount := amount)
    case Revoke(_, _, _) => a.(delegate := None, delegatedAmount := 0)
    case ToggleFreeze(_, _, _, _, freeze) => a.(frozen := freeze)
    case ToggleCpiGuard(_, _, _, enable) => a.(lockCpi := enable, types := With(a.types, CPI_GUARD))
    case ToggleMemo(_, _, _, enable) => a.(memoRequired := enable, types := With(a.types, MEMO_TRANSFER))
    case SyncNative(_) => a.(amount := lamports - a.native.value)
  }

  /** Each of these instructions changes its own fields of the account it names, and nothing else anywhere. */
  lemma EditLeaves(s: State, ctx: Ctx, i: Instr)
    requires i.Approve? || i.Revoke? || i.ToggleFreeze? || i.ToggleCpiGuard? || i.ToggleMemo? || i.SyncNative?
    requires Process(s, ctx, i).Ok?
    ensures var x := Get(s, i.account);
            && x.data.TokenData? && (i.SyncNative? ==> x.data.token.native.Some?
                                                       && x.data.token.native.value <= x.lamports)
            && Process(s, ctx, i).value == s[i.account := x.(data := TokenData(Edited(x.data.token, x.lamports, i)))]
  {
    hide Multisigs.ValidateOwner, InitExtension, L.CheckMint;
    if i.ToggleCpiGuard? {
      ExtensionFits(Get(s, i.account).dataLen, Get(s, i.account).data.token.types, CPI_GUARD);
    } else if i.ToggleMemo? {
      ExtensionFits(Get(s, i.account).dataLen, Get(s, i.account).data.token.types, MEMO_TRANSFER);
    }
  }

  /** The record of a token account after a change of authority. */
  function Reassigned(a: Token, i: Instr): Token
    requires i.SetAuthority? && (i.kind.AccountOwner? ==> i.newAuthority.Some?)
  {
    if i.kind.AccountOwner? then
      a.(owner := i.newAuthority.value, delegate := None, delegatedAmount := 0,
         closeAuthority := if a.native.Some? then None else a.closeAuthority)
    else a.(closeAuthority := i.newAuthority)
  }

  /**
   A change of authority of a token account installs the one named: as owner, then without delegation, and without a
   close authority exactly if the account is native; or as close authority, then nothing else.
   */
  lemma SetTokenAuthorityMeans(s: State, ctx: Ctx, i: Instr)
    requires i.SetAuthority? && HasToken(s, i.account) && Process(s, ctx, i).Ok?
    ensures i.kind.AccountOwner? || i.kind.CloseAccountAuthority?
    ensures i.kind.AccountOwner? ==> i.newAuthority.Some?
    ensures var x := Get(s, i.account);
            Process(s, ctx, i).value == s[i.account := x.(data := TokenData(Reassigned(x.data.token, i)))]
  {
    hide Multisigs.ValidateOwner, L.SetMintAuthority;
  }

  /** A new default state or fee: the fee in force stays until the new one starts, two epochs later. */
  lemma EditMintLeaves(s: State, ctx: Ctx, i: Instr)
    requires (i.UpdateDefaultAccountState? || i.SetTransferFee?) && Process(s, ctx, i).Ok?
    ensures HasMint(s, i.mint)
    ensures var x, m := Get(s, i.mint), Get(s, i.mint).data.mint;
            var ext := if i.UpdateDefaultAccountState? then m.ext.(defaultFrozen := i.frozen)
              else m.ext.(fee := m.ext.fee.(
                            older := EpochFee(m.ext.fee.older, m.ext.fee.newer, ctx.epoch),
                            newer := TransferFee(Min(ctx.epoch + 2, U64_MAX), i.maximumFee, i.basisPoints)));
            Process(s, ctx, i).value == s[i.mint := x.(data := MintData(m.(ext := ext)))]
  {
    hide Multisigs.ValidateOwner;
  }

  // ------------------------------------------------------------------ debits

  /** The source of a debit: the delegate's allowance falls by the amount, and with nothing left it is dropped. */
  function Charged(a: Token, permanent: Option<Pubkey>, key: Pubkey, amount: u64): Token {
    if permanent != Some(key) && a.delegate == Some(key) && amount <= a.delegatedAmount then
      a.(delegatedAmount := a.delegatedAmount - amount,
         delegate := if amount == a.delegatedAmount then None else a.delegate)
    else a
  }

  lemma ChargedIs(s: State, ctx: Ctx, a: Token, permanent: Option<Pubkey>, authority: Signer, signers: seq<Signer>,
                  amount: u64, blocked: Error)
    requires L.AuthorizeDebit(s, ctx, a, permanent, authority, signers, amount, true, blocked).Ok?
    ensures L.AuthorizeDebit(s, ctx, a, permanent, authority, signers, amount, true, blocked).value ==
            Charged(a, permanent, authority.key, amount)
  {
    hide Multisigs.ValidateOwner;
  }

  /** A transfer between two accounts: the amount leaves, arrives less the fee due, and the fee is withheld there. */
  lemma TransferLeaves(s: State, ctx: Ctx, i: Instr)
    requires Inv(s) && i.Transfer? && i.account != i.dest && Process(s, ctx, i).Ok?
    ensures MayTransfer(s, ctx, i) && FeeDue(s, ctx, i).Some?
    ensures var s', fee := Process(s, ctx, i).value, FeeDue(s, ctx, i).value;
            && IsToken(s, i.account) && IsToken(s, i.dest) && IsToken(s', i.account) && IsToken(s', i.dest)
            && var a, d := TokenAt(s, i.account), TokenAt(s, i.dest);
               var a', d' := TokenAt(s', i.account), TokenAt(s', i.dest);
               var permanent := if MintNamed(s, i).Some? then PermanentDelegateOf(MintNamed(s, i).value) else None;
               var moved := if a.native.Some? then i.amount else 0;
               && a'.amount == a.amount - i.amount
               && a' == Charged(a, permanent, i.authority.key, i.amount).(amount := a'.amount)
               && d'.amount == d.amount + i.amount - fee && d'.withheld == d.withheld + fee
               && d' == d.(amount := d'.amount, withheld := d'.withheld)
               && Get(s', i.account).lamports == Get(s, i.account).lamports - moved
               && Get(s', i.dest).lamports == Get(s, i.dest).lamports + moved
               && forall k :: k != i.account && k != i.dest ==> Get(s', k) == Get(s, k)
  {
    hide Process, Inv, Terms, L.AuthorizeDebit, MayTransfer, FeeDue, Charged;
    var a', fee := TransferParts(s, ctx, i);
    TransferIff(s, ctx, i);
    TermsIff(s, ctx, i);
    ChargedIs(s, ctx, TokenAt(s, i.account), Terms(s, ctx, i).value.1, i.authority, i.signers, i.amount,
              CpiGuardTransferBlocked);
  }

  /** A burn: the amount leaves the account and the supply. */
  lemma BurnLeaves(s: State, ctx: Ctx, i: Instr)
    requires i.Burn? && Process(s, ctx, i).Ok?
    ensures IsToken(s, i.account) && IsMint(s, i.mint) && i.account != i.mint
    ensures var s', a, m := Process(s, ctx, i).value, TokenAt(s, i.account), MintAt(s, i.mint);
            var b := if a.OwnedBySystemOrIncinerator() then a
              else Charged(a, PermanentDelegateOf(m), i.authority.key, i.amount);
            && i.amount <= a.amount && i.amount <= m.supply
            && Get(s', i.account) == Get(s, i.account).(data := TokenData(b.(amount := a.amount - i.amount)))
            && Get(s', i.mint) == Get(s, i.mint).(data := MintData(m.(supply := m.supply - i.amount)))
            && forall k :: k != i.account && k != i.mint ==> Get(s', k) == Get(s, k)
  {
    hide Process, L.AuthorizeDebit, Charged;
    var a' := BurnParts(s, ctx, i);
    if !TokenAt(s, i.account).OwnedBySystemOrIncinerator() {
      ChargedIs(s, ctx, TokenAt(s, i.account), PermanentDelegateOf(MintAt(s, i.mint)), i.authority, i.signers, i.amount,
                CpiGuardBurnBlocked);
    }
  }

  // ------------------------------------------------------------------ lamports and data length

  /** Closing pays the destination everything, and leaves the closed account empty and with the system program. */
  lemma CloseLeaves(s: State, ctx: Ctx, i: Instr)
    requires i.CloseAccount? && Process(s, ctx, i).Ok?
    ensures i.account != i.dest
    ensures var s' := Process(s, ctx, i).value;
            && Get(s', i.account) == ABSENT
            && Get(s', i.dest) == Get(s, i.dest).(lamports := Get(s, i.dest).lamports + Get(s, i.account).lamports)
            && forall k :: k != i.account && k != i.dest ==> Get(s', k) == Get(s, k)
  {
    hide Process, L.CheckCloseToken, L.CheckCloseMint;
    CloseParts(s, ctx, i);
  }

  /** Withdrawing excess lamports leaves exactly the rent for the account's length. */
  lemma WithdrawExcessLeaves(s: State, ctx: Ctx, i: Instr)
    requires i.WithdrawExcessLamports? && Process(s, ctx, i).Ok?
    ensures ctx.rent(Get(s, i.account).dataLen) <= Get(s, i.account).lamports
    ensures var s', x, reserve := Process(s, ctx, i).value, Get(s, i.account), ctx.rent(Get(s, i.account).dataLen);
            && (forall k :: k != i.account && k != i.dest ==> Get(s', k) == Get(s, k))
            && if i.dest == i.account then Get(s', i.account) == x
               else
                 && Get(s', i.account) == x.(lamports := reserve)
                 && Get(s', i.dest) == Get(s, i.dest).(lamports := Get(s, i.dest).lamports + x.lamports - reserve)
  {
    hide L.CheckWithdrawExcess;
  }

  /** What a reallocation leaves of the account: unchanged if long enough, else longer, with its missing rent paid. */
  lemma GrowLeaves(s: State, ctx: Ctx, k: Pubkey, payer: Signer, needed: nat)
    requires HasToken(s, k) && needed > Get(s, k).dataLen && L.Grow(s, ctx, k, payer, needed).Ok?
    ensures var s', x, missing := L.Grow(s, ctx, k, payer, needed).value, Get(s, k), Missing(ctx, Get(s, k), needed);
            var a := x.data.token;
            && x.lamports + missing <= U64_MAX
            && Get(s', k) == Info(x.owner, x.lamports + missing, needed,
                                  TokenData(if a.native.Some? then a.(native := Some(ctx.rent(needed))) else a))
            && (missing > 0 ==> payer.key != k
                                && missing <= Get(s, payer.key).lamports
                                && Get(s', payer.key) ==
                                   Get(s, payer.key).(lamports := Get(s, payer.key).lamports - missing))
            && forall j :: j != k && (j != payer.key || missing == 0) ==> Get(s', j) == Get(s, j)
  {
    GrowIff(s, ctx, k, payer, needed);
  }

  /** A reallocated account has room for all its extensions and the new ones. */
  lemma ReallocateMakesRoom(s: State, ctx: Ctx, i: Instr)
    requires i.Reallocate? && Process(s, ctx, i).Ok?
    ensures var s' := Process(s, ctx, i).value;
            && HasToken(s, i.account) && HasToken(s', i.account)
            && var a, b := Get(s, i.account).data.token, Get(s', i.account).data.token;
               && b == a.(native := b.native)
               && Get(s', i.account).dataLen >= Get(s, i.account).dataLen
               && TryCalculateAccountLen(AccountBase, a.types + i.newTypes).Ok?
               && Get(s', i.account).dataLen >= TryCalculateAccountLen(AccountBase, a.types + i.newTypes).value
               && (Get(s', i.account).dataLen > Get(s, i.account).dataLen ==>
                     Get(s', i.account).dataLen == TryCalculateAccountLen(AccountBase, a.types + i.newTypes).value)
  {
    hide Multisigs.ValidateOwner, TryCalculateAccountLen, L.Grow, Missing;
    var needed := TryCalculateAccountLen(AccountBase, Get(s, i.account).data.token.types + i.newTypes).value;
    if needed > Get(s, i.account).dataLen {
      GrowLeaves(s, ctx, i.account, i.payer, needed);
    }
  }

  /** The native mint: no supply, no authorities, nine decimals, and at least the rent, paid by the payer. */
  lemma CreateNativeLeaves(s: State, ctx: Ctx, i: Instr)
    requires i.CreateNativeMint? && Process(s, ctx, i).Ok?
    ensures var s', have, reserve := Process(s, ctx, i).value, Get(s, NATIVE_MINT).lamports, ctx.rent(MINT_LEN);
            var missing := if reserve > have then reserve - have else 0;
            var paid := if i.payer.key == NATIVE_MINT then 0 else missing;
            && have + paid <= U64_MAX && paid <= Get(s, i.payer.key).lamports
            && Get(s', NATIVE_MINT) ==
               Info(TOKEN_PROGRAM, have + paid, MINT_LEN, MintData(Mint.Mint(None, 0, 9, None, [], NO_MINT_EXT)))
            && (i.payer.key != NATIVE_MINT ==>
                  Get(s', i.payer.key) == Get(s, i.payer.key).(lamports := Get(s, i.payer.key).lamports - paid))
            && forall k :: k != NATIVE_MINT && k != i.payer.key ==> Get(s', k) == Get(s, k)
  {
  }

  // ------------------------------------------------------------------ frozen accounts over runs

  /** The instruction moves tokens of the account, or changes who may. */
  predicate Uses(i: Instr, k: Pubkey) {
    || ((i.Transfer? || i.Burn? || i.Approve? || i.Revoke? || i.SetAuthority?) && i.account == k)
    || ((i.Transfer? || i.MintTo? || i.WithdrawWithheldFromMint? || i.WithdrawWithheldFromAccounts?) && i.dest == k)
  }

  lemma FrozenRefuses(s: State, ctx: Ctx, i: Instr, k: Pubkey)
    requires Inv(s) && IsToken(s, k) && TokenAt(s, k).frozen && Uses(i, k)
    ensures Process(s, ctx, i).Err?
  {
    hide Process, Inv, MayDebit, FeeDue, NamesOwnMint;
    SucceedsIff(s, ctx, i);
  }

  /**
   Freezing freezes: after a freeze that took effect, and over any run in which the account is neither toggled nor
   closed, no transfer from or to it succeeds, no burn, no minting to it, no approval, revocation or change of
   authority, and no withdrawal of fees to it.
   */
  lemma FreezeHolds(s: State, e: Step, es: seq<Step>, ctx: Ctx, j: Instr)
    requires Inv(s) && e.Call? && e.instr.ToggleFreeze? && e.instr.freeze && Commits(s, e.ctx, e.instr)
    requires IsToken(s, e.instr.account) && Uses(j, e.instr.account)
    requires NeverHappens(Next(s, e), es, ClosingOrToggling(e.instr.account))
    ensures Process(Run(Next(s, e), es), ctx, j).Err?
  {
    hide Process, Inv, NeverHappens, Run, RuntimeAccepts, Uses;
    var k := e.instr.account;
    EditLeaves(s, e.ctx, e.instr);
    InvNext(s, e);
    InvGood(Next(s, e));
    FrozenIsolated(Next(s, e), es, k);
    InvRun(Next(s, e), es);
    FrozenRefuses(Run(Next(s, e), es), ctx, j, k);
  }

  lemma {:induction false} InvRun(s: State, es: seq<Step>)
    requires Inv(s)
    ensures Inv(Run(s, es))
  {
    hide Inv, Next;
    if es != [] {
      InvRun(s, es[..|es| - 1]);
      InvNext(Run(s, es[..|es| - 1]), es[|es| - 1]);
    }
  }
}
