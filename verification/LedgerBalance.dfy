/** Every step keeps every mint but the native one balanced: supply is conserved. */
module LedgerBalance {
  import opened Bytes
  import opened Common
  import opened ExtensionTypes
  import opened LedgerState
  import opened LedgerSums
  import opened LedgerRuns
  import opened LedgerGood
  import Multisigs
  import L = Ledger

  /** The tokens of `m` an account holds, the supply and the withheld fees it records: what a quiet change keeps. */
  ghost predicate SameTokens(before: Info, after: Info, m: Pubkey) {
    && Holding(before, m) == Holding(after, m)
    && Supply(before) == Supply(after) && MintWithheld(before) == MintWithheld(after)
  }

  lemma QuietSetup(s: State, ctx: Ctx, i: Instr, m: Pubkey)
    requires Good(s) && m != NATIVE_MINT && Process(s, ctx, i).Ok?
    requires i.InitializeMint? || i.InitializeMintCloseAuthority? || i.InitializeNonTransferableMint?
             || i.InitializePermanentDelegate? || i.InitializeDefaultAccountState? || i.InitializeTransferFeeConfig?
             || i.InitializeAuthorityExtension? || i.InitializeImmutableOwner? || i.InitializeMultisig?
    ensures var k := Target(i).value; SameTokens(Get(s, k), Get(Process(s, ctx, i).value, k), m)
  {
    hide Process, SameTokens;
    if i.InitializeMint? || i.InitializeImmutableOwner? || i.InitializeMultisig? {
      QuietBase(s, ctx, i, m);
    } else {
      QuietExtension(s, ctx, i, m);
    }
  }

  lemma QuietBase(s: State, ctx: Ctx, i: Instr, m: Pubkey)
    requires Good(s) && (i.InitializeMint? || i.InitializeImmutableOwner? || i.InitializeMultisig?)
    requires m != NATIVE_MINT && Process(s, ctx, i).Ok?
    ensures var k := Target(i).value; SameTokens(Get(s, k), Get(Process(s, ctx, i).value, k), m)
  {
    hide InitExtension, TryCalculateAccountLen, ValidMintCombination, Good, FitsToken, FitsMint, FitsBlank,
        GoodMultisig;
    GoodAt(s, Target(i).value);
  }

  lemma QuietExtension(s: State, ctx: Ctx, i: Instr, m: Pubkey)
    requires i.InitializeMintCloseAuthority? || i.InitializeNonTransferableMint? || i.InitializePermanentDelegate?
             || i.InitializeDefaultAccountState? || i.InitializeTransferFeeConfig? || i.InitializeAuthorityExtension?
    requires Process(s, ctx, i).Ok?
    ensures var k := Target(i).value; SameTokens(Get(s, k), Get(Process(s, ctx, i).value, k), m)
  {
    hide InitExtension;
  }

  lemma QuietNewAccount(s: State, ctx: Ctx, i: Instr, m: Pubkey)
    requires Good(s) && m != NATIVE_MINT && i.InitializeAccount? && Process(s, ctx, i).Ok?
    ensures SameTokens(Get(s, i.account), Get(Process(s, ctx, i).value, i.account), m)
  {
    hide InitExtensions, TryCalculateAccountLen, RequiredInitAccountExtensions, Good;
  }

  lemma QuietEdit(s: State, ctx: Ctx, i: Instr, m: Pubkey)
    requires Good(s) && m != NATIVE_MINT && Process(s, ctx, i).Ok?
    requires i.Approve? || i.Revoke? || i.ToggleFreeze? || i.UpdateDefaultAccountState? || i.SyncNative?
             || i.SetTransferFee?
    ensures var k := Target(i).value; SameTokens(Get(s, k), Get(Process(s, ctx, i).value, k), m)
  {
    hide Process, SameTokens;
    if i.UpdateDefaultAccountState? || i.SetTransferFee? {
      QuietMintEdit(s, ctx, i, m);
    } else {
      QuietTokenEdit(s, ctx, i, m);
    }
  }

  lemma QuietMintEdit(s: State, ctx: Ctx, i: Instr, m: Pubkey)
    requires (i.UpdateDefaultAccountState? || i.SetTransferFee?) && Process(s, ctx, i).Ok?
    ensures var k := Target(i).value; SameTokens(Get(s, k), Get(Process(s, ctx, i).value, k), m)
  {
    hide Multisigs.ValidateOwner;
  }

  lemma QuietTokenEdit(s: State, ctx: Ctx, i: Instr, m: Pubkey)
    requires Good(s) && m != NATIVE_MINT && Process(s, ctx, i).Ok?
    requires i.Approve? || i.Revoke? || i.ToggleFreeze? || i.SyncNative?
    ensures var k := Target(i).value; SameTokens(Get(s, k), Get(Process(s, ctx, i).value, k), m)
  {
    hide Multisigs.ValidateOwner, L.CheckMint, Good, GoodFee, GoodMint, FitsToken, FitsMint, FitsBlank, GoodMultisig;
    GoodAt(s, Target(i).value);
  }

  lemma QuietToggle(s: State, ctx: Ctx, i: Instr, m: Pubkey)
    requires (i.ToggleCpiGuard? || i.ToggleMemo?) && Process(s, ctx, i).Ok?
    ensures var k := Target(i).value; SameTokens(Get(s, k), Get(Process(s, ctx, i).value, k), m)
  {
    hide Multisigs.ValidateOwner;
  }

  lemma QuietSetAuthority(s: State, ctx: Ctx, i: Instr, m: Pubkey)
    requires i.SetAuthority? && Process(s, ctx, i).Ok?
    ensures SameTokens(Get(s, i.account), Get(Process(s, ctx, i).value, i.account), m)
  {
    hide Multisigs.ValidateOwner;
  }

  lemma BalanceSingle(s: State, ctx: Ctx, i: Instr, m: Pubkey)
    requires Good(s) && m != NATIVE_MINT && Balanced(s, m) && Target(i).Some? && Process(s, ctx, i).Ok?
    ensures Balanced(Process(s, ctx, i).value, m)
  {
    hide Process, Good, Balanced;
    SingleTarget(s, ctx, i);
    if i.Approve? || i.Revoke? || i.ToggleFreeze? || i.UpdateDefaultAccountState? || i.SyncNative?
        || i.SetTransferFee? {
      QuietEdit(s, ctx, i, m);
    } else if i.ToggleCpiGuard? || i.ToggleMemo? {
      QuietToggle(s, ctx, i, m);
    } else if i.SetAuthority? {
      QuietSetAuthority(s, ctx, i, m);
    } else if i.InitializeAccount? {
      QuietNewAccount(s, ctx, i, m);
    } else {
      QuietSetup(s, ctx, i, m);
    }
    var k := Target(i).value;
    QuietUpdate(s, m, k, Get(Process(s, ctx, i).value, k));
  }

  // ------------------------------------------------------------------ instructions that move tokens

  lemma BalanceTransfer(s: State, ctx: Ctx, i: Instr, m: Pubkey)
    requires Balanced(s, m) && i.Transfer? && Process(s, ctx, i).Ok?
    ensures Balanced(Process(s, ctx, i).value, m)
  {
    hide Process, L.AuthorizeDebit, L.TransferTerms, Held;
    if i.account == i.dest {
      SelfTransfer(s, ctx, i);
    } else {
      var a', fee := TransferParts(s, ctx, i);
      var s' := Process(s, ctx, i).value;
      HeldUpdate(s, m, i.account, Get(s', i.account));
      HeldUpdate(s[i.account := Get(s', i.account)], m, i.dest, Get(s', i.dest));
    }
  }

  lemma BalanceSupply(s: State, ctx: Ctx, i: Instr, m: Pubkey)
    requires Balanced(s, m) && (i.MintTo? || i.Burn?) && Process(s, ctx, i).Ok?
    ensures Balanced(Process(s, ctx, i).value, m)
  {
    hide Process, BurnDebit, Held;
    var k := if i.MintTo? then i.dest else i.account;
    if i.MintTo? {
      MintToParts(s, ctx, i);
    } else {
      var a' := BurnParts(s, ctx, i);
    }
    var s' := Process(s, ctx, i).value;
    HeldUpdate(s, m, k, Get(s', k));
    HeldUpdate(s[k := Get(s', k)], m, i.mint, Get(s', i.mint));
  }

  lemma BalanceClose(s: State, ctx: Ctx, i: Instr, m: Pubkey)
    requires Good(s) && m != NATIVE_MINT && Balanced(s, m) && i.CloseAccount? && Process(s, ctx, i).Ok?
    ensures Balanced(Process(s, ctx, i).value, m)
  {
    hide Process, L.CheckCloseToken, L.CheckCloseMint, Held, Good;
    CloseParts(s, ctx, i);
    GoodAt(s, i.account);
    var s' := Process(s, ctx, i).value;
    match Get(s, i.account).data {
      case TokenData(a) => CheckCloseTokenMeans(s, ctx, a, i.dest, i.authority, i.signers);
      case MintData(x) => CheckCloseMintMeans(s, x, i.authority, i.signers);
    }
    HeldUpdate(s, m, i.dest, Get(s', i.dest));
    HeldUpdate(s[i.dest := Get(s', i.dest)], m, i.account, ABSENT);
  }

  /** Changes of lamports and data lengths, or of accounts the program does not own. */
  lemma BalanceSame(s: State, s': State, m: Pubkey)
    requires Balanced(s, m) && s.Keys <= s'.Keys
    requires forall k :: k in s' ==> Holding(Get(s, k), m) == Holding(s'[k], m)
    requires Supply(Get(s, m)) == Supply(Get(s', m)) && MintWithheld(Get(s, m)) == MintWithheld(Get(s', m))
    ensures Balanced(s', m)
  {
    SumSame(s, s', HoldingOf(m));
  }

  lemma BalanceWithdrawExcess(s: State, ctx: Ctx, i: Instr, m: Pubkey)
    requires Balanced(s, m) && i.WithdrawExcessLamports? && Process(s, ctx, i).Ok?
    ensures Balanced(Process(s, ctx, i).value, m)
  {
    hide Multisigs.ValidateOwner, L.CheckWithdrawExcess;
    BalanceSame(s, Process(s, ctx, i).value, m);
  }

  lemma BalanceReallocate(s: State, ctx: Ctx, i: Instr, m: Pubkey)
    requires Balanced(s, m) && i.Reallocate? && Process(s, ctx, i).Ok?
    ensures Balanced(Process(s, ctx, i).value, m)
  {
    hide Multisigs.ValidateOwner, L.Grow, TryCalculateAccountLen, Balanced;
    if Process(s, ctx, i).value != s {
      var needed := TryCalculateAccountLen(AccountBase, Get(s, i.account).data.token.types + i.newTypes).value;
      BalanceGrow(s, ctx, i.account, i.payer, needed, m);
    }
  }

  lemma BalanceGrow(s: State, ctx: Ctx, k: Pubkey, payer: Signer, needed: nat, m: Pubkey)
    requires Balanced(s, m) && Get(s, k).data.TokenData? && L.Grow(s, ctx, k, payer, needed).Ok?
    ensures Balanced(L.Grow(s, ctx, k, payer, needed).value, m)
  {
    hide Balanced, L.SystemTransfer;
    var i := Get(s, k);
    var grown := s[k := i.(dataLen := needed)];
    QuietUpdate(s, m, k, i.(dataLen := needed));
    var a := i.data.token;
    var reserve := ctx.rent(needed);
    var current := i.lamports - (if a.native.Some? then a.amount else 0);
    var paid := if reserve > current then L.SystemTransfer(grown, payer, k, reserve - current).value else grown;
    if reserve > current {
      BalanceSystemTransfer(grown, payer, k, reserve - current, m);
      SystemTransferKeepsData(grown, payer, k, reserve - current, k);
    }
    if a.native.Some? {
      QuietUpdate(paid, m, k, L.WithToken(Get(paid, k), a.(native := Some(reserve))));
    }
  }

  lemma BalanceSystemTransfer(s: State, payer: Signer, dest: Pubkey, lamports: nat, m: Pubkey)
    requires Balanced(s, m) && L.SystemTransfer(s, payer, dest, lamports).Ok?
    ensures Balanced(L.SystemTransfer(s, payer, dest, lamports).value, m)
  {
    BalanceSame(s, L.SystemTransfer(s, payer, dest, lamports).value, m);
  }

  lemma BalanceCreateNative(s: State, ctx: Ctx, i: Instr, m: Pubkey)
    requires Good(s) && m != NATIVE_MINT && Balanced(s, m) && i.CreateNativeMint? && Process(s, ctx, i).Ok?
    ensures Balanced(Process(s, ctx, i).value, m)
  {
    hide L.SystemTransfer, Good, Balanced;
    var have, reserve := Get(s, NATIVE_MINT).lamports, ctx.rent(MINT_LEN);
    var diff := if reserve > have then reserve - have else 0;
    BalanceSystemTransfer(s, i.payer, NATIVE_MINT, diff, m);
    var paid := L.SystemTransfer(s, i.payer, NATIVE_MINT, diff).value;
    QuietUpdate(paid, m, NATIVE_MINT, Get(Process(s, ctx, i).value, NATIVE_MINT));
  }

  // ------------------------------------------------------------------ withheld fees

  lemma BalanceWithdrawFromMint(s: State, ctx: Ctx, i: Instr, m: Pubkey)
    requires Balanced(s, m) && i.WithdrawWithheldFromMint? && Commits(s, ctx, i)
    ensures Balanced(Process(s, ctx, i).value, m)
  {
    hide L.CheckWithdrawal, Held;
    WithdrawalChecked(s, i.mint, i.dest, i.authority, i.signers);
    var s' := Process(s, ctx, i).value;
    assert i.dest in s' && i.dest != i.mint;
    HeldUpdate(s, m, i.mint, Get(s', i.mint));
    HeldUpdate(s[i.mint := Get(s', i.mint)], m, i.dest, Get(s', i.dest));
  }

  lemma BalanceHarvestOne(s: State, mintKey: Pubkey, k: Pubkey, m: Pubkey)
    requires Balanced(s, m) && Get(s, mintKey).data.MintData? && L.HarvestOne(s, mintKey, k).Ok?
    requires TRANSFER_FEE_CONFIG in Get(s, mintKey).data.mint.types
    ensures Balanced(L.HarvestOne(s, mintKey, k).value, m)
  {
    hide Held;
    var s' := L.HarvestOne(s, mintKey, k).value;
    if L.Harvestable(s, mintKey, k) {
      HeldUpdate(s, m, k, Get(s', k));
      HeldUpdate(s[k := Get(s', k)], m, mintKey, Get(s', mintKey));
    }
  }

  lemma {:induction false} BalanceHarvestAll(s: State, mintKey: Pubkey, sources: seq<Pubkey>, m: Pubkey)
    requires Balanced(s, m) && Get(s, mintKey).data.MintData? && L.HarvestAll(s, mintKey, sources).Ok?
    requires TRANSFER_FEE_CONFIG in Get(s, mintKey).data.mint.types
    ensures var s' := L.HarvestAll(s, mintKey, sources).value;
            Balanced(s', m) && TRANSFER_FEE_CONFIG in Get(s', mintKey).data.mint.types
  {
    hide Balanced;
    if sources != [] {
      var n := |sources| - 1;
      BalanceHarvestAll(s, mintKey, sources[..n], m);
      BalanceHarvestOne(L.HarvestAll(s, mintKey, sources[..n]).value, mintKey, sources[n], m);
    }
  }

  lemma BalanceWithdrawOne(s: State, mintKey: Pubkey, dest: Pubkey, k: Pubkey, m: Pubkey)
    requires Balanced(s, m) && Get(s, dest).data.TokenData? && Get(s, dest).data.token.mint == mintKey
    requires L.WithdrawOne(s, mintKey, dest, k).Ok?
    requires IsToken(s, dest)
        || Get(L.WithdrawOne(s, mintKey, dest, k).value, dest).data.token.amount == Get(s, dest).data.token.amount
    ensures Balanced(L.WithdrawOne(s, mintKey, dest, k).value, m)
  {
    hide L.WithdrawOne, Balanced;
    if k == dest {
      BalanceWithdrawOwn(s, mintKey, dest, m);
    } else {
      BalanceWithdrawOther(s, mintKey, dest, k, m);
    }
  }

  lemma BalanceWithdrawOwn(s: State, mintKey: Pubkey, dest: Pubkey, m: Pubkey)
    requires Balanced(s, m) && Get(s, dest).data.TokenData? && L.WithdrawOne(s, mintKey, dest, dest).Ok?
    requires IsToken(s, dest)
        || Get(L.WithdrawOne(s, mintKey, dest, dest).value, dest).data.token.amount == Get(s, dest).data.token.amount
    ensures Balanced(L.WithdrawOne(s, mintKey, dest, dest).value, m)
  {
    hide Held;
    HeldUpdate(s, m, dest, Get(L.WithdrawOne(s, mintKey, dest, dest).value, dest));
  }

  lemma BalanceWithdrawOther(s: State, mintKey: Pubkey, dest: Pubkey, k: Pubkey, m: Pubkey)
    requires Balanced(s, m) && Get(s, dest).data.TokenData? && Get(s, dest).data.token.mint == mintKey
    requires k != dest && L.WithdrawOne(s, mintKey, dest, k).Ok?
    requires IsToken(s, dest)
        || Get(L.WithdrawOne(s, mintKey, dest, k).value, dest).data.token.amount == Get(s, dest).data.token.amount
    ensures Balanced(L.WithdrawOne(s, mintKey, dest, k).value, m)
  {
    hide Held;
    var s' := L.WithdrawOne(s, mintKey, dest, k).value;
    if L.Harvestable(s, mintKey, k) {
      HeldUpdate(s, m, k, Get(s', k));
      HeldUpdate(s[k := Get(s', k)], m, dest, Get(s', dest));
    }
  }

  lemma {:induction false} BalanceWithdrawAll(s: State, mintKey: Pubkey, dest: Pubkey, sources: seq<Pubkey>, m: Pubkey)
    requires Balanced(s, m) && Get(s, dest).data.TokenData? && Get(s, dest).data.token.mint == mintKey
    requires L.WithdrawAll(s, mintKey, dest, sources).Ok?
    requires IsToken(s, dest)
        || Get(L.WithdrawAll(s, mintKey, dest, sources).value, dest).data.token.amount == Get(s, dest).data.token.amount
    ensures Balanced(L.WithdrawAll(s, mintKey, dest, sources).value, m)
  {
    hide Balanced, L.WithdrawOne;
    if sources != [] {
      var n := |sources| - 1;
      var before := L.WithdrawAll(s, mintKey, dest, sources[..n]).value;
      WithdrawAllKeepsDest(s, mintKey, dest, sources[..n]);
      WithdrawOneGrows(before, mintKey, dest, sources[n]);
      BalanceWithdrawAll(s, mintKey, dest, sources[..n], m);
      BalanceWithdrawOne(before, mintKey, dest, sources[n], m);
    }
  }

  lemma WithdrawOneGrows(s: State, mintKey: Pubkey, dest: Pubkey, k: Pubkey)
    requires Get(s, dest).data.TokenData? && L.WithdrawOne(s, mintKey, dest, k).Ok?
    ensures var i' := Get(L.WithdrawOne(s, mintKey, dest, k).value, dest);
            i'.data.TokenData? && i'.data.token.amount >= Get(s, dest).data.token.amount
  {
  }

  lemma BalanceHarvest(s: State, ctx: Ctx, i: Instr, m: Pubkey)
    requires Balanced(s, m) && (i.HarvestWithheldToMint? || i.WithdrawWithheldFromAccounts?) && Commits(s, ctx, i)
    ensures Balanced(Process(s, ctx, i).value, m)
  {
    hide L.CheckWithdrawal, L.HarvestAll, L.WithdrawAll, Balanced;
    if i.HarvestWithheldToMint? {
      BalanceHarvestAll(s, i.mint, i.sources, m);
    } else {
      WithdrawalChecked(s, i.mint, i.dest, i.authority, i.signers);
      WithdrawAllKeepsDest(s, i.mint, i.dest, i.sources);
      var s' := Process(s, ctx, i).value;
      if Get(s, i.dest).owner != TOKEN_PROGRAM && i.dest in s' {
        assert OnlyDeposited(Get(s, i.dest), Get(s', i.dest));
      }
      BalanceWithdrawAll(s, i.mint, i.dest, i.sources, m);
    }
  }

  // ------------------------------------------------------------------ every step

  lemma BalanceProcess(s: State, ctx: Ctx, i: Instr, m: Pubkey)
    requires Good(s) && m != NATIVE_MINT && Balanced(s, m) && Commits(s, ctx, i)
    ensures Balanced(Process(s, ctx, i).value, m)
  {
    hide Process, Good, Balanced, RuntimeAccepts;
    if Target(i).Some? {
      BalanceSingle(s, ctx, i, m);
    } else {
      match i
      case Transfer(_, _, _, _, _, _, _) => BalanceTransfer(s, ctx, i, m);
      case MintTo(_, _, _, _, _, _) => BalanceSupply(s, ctx, i, m);
      case Burn(_, _, _, _, _, _) => BalanceSupply(s, ctx, i, m);
      case CloseAccount(_, _, _, _) => BalanceClose(s, ctx, i, m);
      case WithdrawExcessLamports(_, _, _, _) => BalanceWithdrawExcess(s, ctx, i, m);
      case Reallocate(_, _, _, _, _) => BalanceReallocate(s, ctx, i, m);
      case CreateNativeMint(_) => BalanceCreateNative(s, ctx, i, m);
      case WithdrawWithheldFromMint(_, _, _, _) => BalanceWithdrawFromMint(s, ctx, i, m);
      case HarvestWithheldToMint(_, _) => BalanceHarvest(s, ctx, i, m);
      case WithdrawWithheldFromAccounts(_, _, _, _, _) => BalanceHarvest(s, ctx, i, m);
    }
  }

  lemma BalanceNext(s: State, e: Step, m: Pubkey)
    requires Good(s) && m != NATIVE_MINT && Balanced(s, m)
    ensures Balanced(Next(s, e), m)
  {
    hide Process, Good, Balanced, RuntimeAccepts;
    match e
    case Call(ctx, i) =>
      if Commits(s, ctx, i) { BalanceProcess(s, ctx, i, m); }
    case Outside(k, i) =>
      if OutsideAllowed(Get(s, k), k, i) { QuietUpdate(s, m, k, i); }
  }

  lemma InvNext(s: State, e: Step)
    requires Inv(s)
    ensures Inv(Next(s, e))
  {
    hide Next, Good, Balanced;
    GoodNext(s, e);
    forall m: Pubkey | m != NATIVE_MINT
      ensures Balanced(Next(s, e), m)
    {
      BalanceNext(s, e, m);
    }
  }

  /** The invariant holds before the first instruction. */
  lemma InvGenesis(s: State)
    requires Genesis(s)
    ensures Inv(s)
  {
    forall m: Pubkey | m != NATIVE_MINT
      ensures Balanced(s, m)
    {
      SumZero(s, HoldingOf(m));
    }
  }

  /**
   Supply conservation, over every run from the start: whatever instructions run in whatever order, committed or
   rolled back, with anything other programs do in between, the supply of every mint but the native one is the sum
   of all balances and withheld fees of its accounts and of the fees withheld in the mint.
   */
  lemma {:induction false} SupplyConserved(s: State, es: seq<Step>)
    requires Genesis(s)
    ensures Inv(Run(s, es))
    ensures forall m: Pubkey :: m != NATIVE_MINT ==>
              Held(Run(s, es), m) + MintWithheld(Get(Run(s, es), m)) == Supply(Get(Run(s, es), m))
  {
    hide Next, Good, Held;
    InvAlong(s, es);
    forall m: Pubkey | m != NATIVE_MINT
      ensures Held(Run(s, es), m) + MintWithheld(Get(Run(s, es), m)) == Supply(Get(Run(s, es), m))
    {
      assert Balanced(Run(s, es), m);
    }
  }

  lemma {:induction false} InvAlong(s: State, es: seq<Step>)
    requires Genesis(s)
    ensures Inv(Run(s, es))
  {
    hide Inv, Next, Genesis;
    if es == [] {
      InvGenesis(s);
    } else {
      InvAlong(s, es[..|es| - 1]);
      InvNext(Run(s, es[..|es| - 1]), es[|es| - 1]);
    }
  }
}
