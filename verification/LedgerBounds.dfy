/** Consequences of the invariant for single instructions: arithmetic that cannot fail, native accounts, lamports. */
module LedgerBounds {
  import opened Bytes
  import opened Common
  import opened ExtensionTypes
  import opened TransferFees
  import opened LedgerState
  import opened LedgerSums
  import opened LedgerRuns
  import opened LedgerGood
  import opened LedgerBalance
  import Multisigs
  import L = Ledger

  // ------------------------------------------------------------------ overflow

  lemma HeldAtMostSupply(s: State, m: Pubkey, k: Pubkey)
    requires Inv(s) && m != NATIVE_MINT
    ensures Holding(Get(s, k), m) + MintWithheld(Get(s, m)) <= Supply(Get(s, m)) <= U64_MAX
    ensures Held(s, m) <= Supply(Get(s, m))
  {
    assert Balanced(s, m);
    HeldUpdate(s, m, k, ABSENT);
  }

  /** Whatever mint a transfer names, its fee is defined and at most the amount. */
  lemma FeeFits(s: State, ctx: Ctx, i: Instr)
    requires Inv(s) && i.Transfer? && IsToken(s, i.account) && TokenAt(s, i.account).mint != NATIVE_MINT
    requires i.amount <= TokenAt(s, i.account).amount
    ensures Terms(s, ctx, i) != Err(Overflow)
    ensures Terms(s, ctx, i).Ok? ==> Terms(s, ctx, i).value.0 <= i.amount
  {
    hide CalculateFee, Good;
    if i.checked.Some? && i.checked.value.mint == TokenAt(s, i.account).mint {
      var m := i.checked.value.mint;
      HeldAtMostSupply(s, m, i.account);
      GoodAt(s, m);
      var mi := Get(s, m);
      if mi.data.MintData? {
        var f := EpochFee(mi.data.mint.ext.fee.older, mi.data.mint.ext.fee.newer, ctx.epoch);
        if mi.owner == TOKEN_PROGRAM {
          FeeMeaning(f, i.amount);
        } else {
          NoFeeOnNothing(f);
        }
      }
    }
  }

  lemma NoFeeOnNothing(f: TransferFee)
    ensures CalculateFee(f, 0) == Some(0)
  {
  }

  lemma DebitNeverOverflows(s: State, ctx: Ctx, a: Token, pd: Option<Pubkey>, authority: Signer, signers: seq<Signer>,
                            amount: u64, charge: bool, blocked: Error)
    requires blocked != Overflow
    ensures L.AuthorizeDebit(s, ctx, a, pd, authority, signers, amount, charge, blocked) != Err(Overflow)
  {
  }

  lemma MoveNeverOverflows(s: State, ctx: Ctx, source: Pubkey, a: Token, dest: Pubkey, amount: u64, fee: u64,
                           hook: Option<Pubkey>)
    requires Inv(s) && source != dest && IsToken(s, source) && Get(s, dest).owner == TOKEN_PROGRAM
    requires a.mint == TokenAt(s, source).mint && a.mint != NATIVE_MINT && a.native.None?
    requires a.amount == TokenAt(s, source).amount && fee <= amount <= a.amount
    ensures L.Move(s, ctx, source, a, dest, amount, fee, hook) != Err(Overflow)
  {
    hide Good;
    if Get(s, dest).data.TokenData? && TokenAt(s, dest).mint == a.mint {
      HeldPair(s, a.mint, source, dest);
      HeldAtMostSupply(s, a.mint, source);
    }
  }

  /** Transferring tokens of a reachable state never overflows: not the fee, the credit nor the withheld amount. */
  lemma TransferNeverOverflows(s: State, ctx: Ctx, i: Instr)
    requires Inv(s) && i.Transfer? && IsToken(s, i.account) && TokenAt(s, i.account).mint != NATIVE_MINT
    ensures Process(s, ctx, i) != Err(Overflow)
  {
    hide L.AuthorizeDebit, L.Move, Inv, Terms;
    var a := TokenAt(s, i.account);
    assert Inv(s);
    assert a.native.None? by { NativeIff(s, i.account); }
    if i.amount <= a.amount {
      FeeFits(s, ctx, i);
      if Terms(s, ctx, i).Ok? {
        var (fee, pd, hook) := Terms(s, ctx, i).value;
        DebitNeverOverflows(s, ctx, a, pd, i.authority, i.signers, i.amount, i.account != i.dest,
                            CpiGuardTransferBlocked);
        var r := L.AuthorizeDebit(s, ctx, a, pd, i.authority, i.signers, i.amount, i.account != i.dest,
                                  CpiGuardTransferBlocked);
        if r.Ok? && i.account != i.dest && Get(s, i.dest).owner == TOKEN_PROGRAM {
          DebitKeepsAmount(s, ctx, a, pd, i.authority, i.signers, i.amount);
          MoveNeverOverflows(s, ctx, i.account, r.value, i.dest, i.amount, fee, hook);
        }
      }
    }
    TransferUnfolds(s, ctx, i, Overflow);
  }

  lemma NativeIff(s: State, k: Pubkey)
    requires Inv(s) && IsToken(s, k)
    ensures TokenAt(s, k).native.Some? <==> TokenAt(s, k).mint == NATIVE_MINT
  {
    GoodAt(s, k);
  }

  lemma DebitKeepsAmount(s: State, ctx: Ctx, a: Token, pd: Option<Pubkey>, authority: Signer, signers: seq<Signer>,
                         amount: u64)
    requires L.AuthorizeDebit(s, ctx, a, pd, authority, signers, amount, true, CpiGuardTransferBlocked).Ok?
    ensures var a' := L.AuthorizeDebit(s, ctx, a, pd, authority, signers, amount, true, CpiGuardTransferBlocked).value;
            a' == a.(delegate := a'.delegate, delegatedAmount := a'.delegatedAmount)
  {
    hide Multisigs.ValidateOwner;
  }

  /** Burning never takes the supply below zero. */
  lemma BurnNeverOverflows(s: State, ctx: Ctx, i: Instr)
    requires Inv(s) && i.Burn?
    ensures Process(s, ctx, i) != Err(Overflow)
  {
    hide L.AuthorizeDebit, Good;
    if Get(s, i.account).data.TokenData? && Get(s, i.mint).data.MintData? {
      var a := Get(s, i.account).data.token;
      DebitNeverOverflows(s, ctx, a, PermanentDelegateOf(Get(s, i.mint).data.mint), i.authority, i.signers, i.amount,
                          true, CpiGuardBurnBlocked);
      if IsToken(s, i.account) && IsMint(s, i.mint) && a.mint == i.mint && a.native.None? {
        NativeIff(s, i.account);
        HeldAtMostSupply(s, i.mint, i.account);
      }
    }
  }

  /** Everything minting checks besides the two sums. */
  ghost predicate MayMint(s: State, i: Instr)
    requires i.MintTo?
  {
    && IsToken(s, i.dest) && IsMint(s, i.mint)
    && var d, m := TokenAt(s, i.dest), MintAt(s, i.mint);
       && !d.frozen && d.native.None? && d.mint == i.mint
       && (NON_TRANSFERABLE in m.types ==> IMMUTABLE_OWNER in d.types)
       && (i.expectedDecimals.Some? ==> i.expectedDecimals.value == m.decimals)
       && m.authority.Some? && Multisigs.ValidateOwner(s, m.authority.value, i.authority, i.signers).Ok?
  }

  /** An otherwise valid minting overflows exactly when the new supply does not fit. */
  lemma MintToOverflowsIff(s: State, ctx: Ctx, i: Instr)
    requires Inv(s) && i.MintTo? && MayMint(s, i)
    ensures Process(s, ctx, i).Ok? <==> MintAt(s, i.mint).supply + i.amount <= U64_MAX
    ensures Process(s, ctx, i).Err? ==> Process(s, ctx, i) == Err(Overflow)
  {
    hide Multisigs.ValidateOwner, Good;
    GoodAt(s, i.dest);
    HeldAtMostSupply(s, i.mint, i.dest);
  }

  lemma HarvestOneFits(s: State, mintKey: Pubkey, k: Pubkey)
    requires Balanced(s, mintKey) && IsMint(s, mintKey) && TRANSFER_FEE_CONFIG in MintAt(s, mintKey).types
    ensures L.HarvestOne(s, mintKey, k).Ok?
  {
    HeldUpdate(s, mintKey, k, ABSENT);
  }

  /** Harvesting withheld fees into a mint never overflows, whatever accounts are named, and however often. */
  lemma {:induction false} HarvestNeverOverflows(s: State, mintKey: Pubkey, sources: seq<Pubkey>)
    requires Balanced(s, mintKey) && IsMint(s, mintKey) && TRANSFER_FEE_CONFIG in MintAt(s, mintKey).types
    ensures L.HarvestAll(s, mintKey, sources).Ok?
    ensures var s' := L.HarvestAll(s, mintKey, sources).value;
            Balanced(s', mintKey) && IsMint(s', mintKey) && TRANSFER_FEE_CONFIG in MintAt(s', mintKey).types
  {
    hide Balanced;
    if sources != [] {
      var n := |sources| - 1;
      HarvestNeverOverflows(s, mintKey, sources[..n]);
      var t := L.HarvestAll(s, mintKey, sources[..n]).value;
      HarvestOneFits(t, mintKey, sources[n]);
      BalanceHarvestOne(t, mintKey, sources[n], mintKey);
    }
  }

  lemma WithdrawOneFits(s: State, mintKey: Pubkey, dest: Pubkey, k: Pubkey)
    requires Balanced(s, mintKey) && IsToken(s, dest) && TokenAt(s, dest).mint == mintKey
    ensures L.WithdrawOne(s, mintKey, dest, k) != Err(Overflow)
  {
    if k != dest { HeldPair(s, mintKey, dest, k); } else { HeldUpdate(s, mintKey, dest, ABSENT); }
  }

  /** Withdrawing withheld fees from accounts never overflows the destination. */
  lemma {:induction false} WithdrawNeverOverflows(s: State, mintKey: Pubkey, dest: Pubkey, sources: seq<Pubkey>)
    requires Balanced(s, mintKey) && IsToken(s, dest) && TokenAt(s, dest).mint == mintKey
    ensures L.WithdrawAll(s, mintKey, dest, sources) != Err(Overflow)
    ensures L.WithdrawAll(s, mintKey, dest, sources).Ok? ==>
              var s' := L.WithdrawAll(s, mintKey, dest, sources).value;
              Balanced(s', mintKey) && IsToken(s', dest) && TokenAt(s', dest).mint == mintKey
  {
    hide Balanced, L.WithdrawOne;
    if sources != [] {
      var n := |sources| - 1;
      WithdrawNeverOverflows(s, mintKey, dest, sources[..n]);
      if L.WithdrawAll(s, mintKey, dest, sources[..n]).Ok? {
        var t := L.WithdrawAll(s, mintKey, dest, sources[..n]).value;
        WithdrawOneFits(t, mintKey, dest, sources[n]);
        if L.WithdrawOne(t, mintKey, dest, sources[n]).Ok? {
          BalanceWithdrawOne(t, mintKey, dest, sources[n], mintKey);
          WithdrawAllKeepsDest(s, mintKey, dest, sources);
        }
      }
    }
  }

  lemma WithdrawFromMintNeverOverflows(s: State, ctx: Ctx, i: Instr)
    requires Inv(s) && i.WithdrawWithheldFromMint? && IsToken(s, i.dest)
    ensures Process(s, ctx, i) != Err(Overflow)
  {
    hide Multisigs.Authorizes, Good;
    if IsMint(s, i.mint) && TRANSFER_FEE_CONFIG in MintAt(s, i.mint).types && TokenAt(s, i.dest).mint == i.mint {
      NativeHasNoFees(s, i.mint);
      HeldAtMostSupply(s, i.mint, i.dest);
    }
  }

  // ------------------------------------------------------------------ native accounts

  /** In every reachable state a native account's lamports cover its recorded reserve and its tokens. */
  lemma NativeBacked(s: State, es: seq<Step>, k: Pubkey)
    requires Genesis(s) && IsToken(Run(s, es), k) && TokenAt(Run(s, es), k).native.Some?
    ensures var t := Run(s, es); Get(t, k).lamports >= TokenAt(t, k).native.value + TokenAt(t, k).amount
  {
    hide Genesis, Good;
    InvAlong(s, es);
    GoodAt(Run(s, es), k);
  }

  /** Hence synchronising a native account always succeeds, and its tokens never fall by it. */
  lemma SyncNeverFails(s: State, ctx: Ctx, i: Instr)
    requires Inv(s) && i.SyncNative? && IsToken(s, i.account) && TokenAt(s, i.account).native.Some?
    ensures Commits(s, ctx, i)
    ensures var t := Next(s, Call(ctx, i));
            && IsToken(t, i.account) && TokenAt(t, i.account).amount >= TokenAt(s, i.account).amount
            && Get(t, i.account).lamports == TokenAt(t, i.account).native.value + TokenAt(t, i.account).amount
  {
    hide Good;
    GoodAt(s, i.account);
  }

  /**
   The sanity checks of a reallocation are dead: growing a reachable account fails only when the lamports it needs
   cannot be paid.
   */
  lemma GrowFailsOnlyUnpaid(s: State, ctx: Ctx, k: Pubkey, payer: Signer, needed: nat)
    requires Inv(s) && IsToken(s, k)
    ensures var i := Get(s, k);
            var a := TokenAt(s, k);
            var current := i.lamports - (if a.native.Some? then a.amount else 0);
            var reserve := ctx.rent(needed);
            L.Grow(s, ctx, k, payer, needed).Ok? <==>
              reserve <= current || L.SystemTransfer(s[k := i.(dataLen := needed)], payer, k, reserve - current).Ok?
  {
    hide L.SystemTransfer, Good;
    GoodAt(s, k);
    var i := Get(s, k);
    var a := TokenAt(s, k);
    var grown := s[k := i.(dataLen := needed)];
    var current := i.lamports - (if a.native.Some? then a.amount else 0);
    var reserve := ctx.rent(needed);
    if reserve > current && L.SystemTransfer(grown, payer, k, reserve - current).Ok? {
      PayerIsNotToken(grown, payer, k, reserve - current);
      SystemTransferKeeps(grown, payer, k, reserve - current, k);
    }
  }

  // ------------------------------------------------------------------ lamports

  lemma SameLamports(s: State, k: Pubkey, i: Info)
    requires i.lamports == Get(s, k).lamports
    ensures Sum(s[k := i], Lamports()) == Sum(s, Lamports())
  {
    SumUpdate(s, Lamports(), k, i);
  }

  lemma MovedLamports(s: State, j: Pubkey, i: Info, k: Pubkey, i': Info)
    requires Get(s, j).lamports + Get(s[j := i], k).lamports == i.lamports + i'.lamports
    ensures Sum(s[j := i][k := i'], Lamports()) == Sum(s, Lamports())
  {
    SumUpdate(s, Lamports(), j, i);
    SumUpdate(s[j := i], Lamports(), k, i');
  }

  lemma SystemTransferLamports(s: State, payer: Signer, dest: Pubkey, lamports: nat)
    requires L.SystemTransfer(s, payer, dest, lamports).Ok?
    ensures Sum(L.SystemTransfer(s, payer, dest, lamports).value, Lamports()) == Sum(s, Lamports())
  {
    hide Sum;
    var pi := Get(s, payer.key);
    var after := pi.(lamports := pi.lamports - lamports);
    var di := Get(s[payer.key := after], dest);
    MovedLamports(s, payer.key, after, dest, di.(lamports := di.lamports + lamports));
  }

  lemma GrowLamports(s: State, ctx: Ctx, k: Pubkey, payer: Signer, needed: nat)
    requires Get(s, k).data.TokenData? && L.Grow(s, ctx, k, payer, needed).Ok?
    ensures Sum(L.Grow(s, ctx, k, payer, needed).value, Lamports()) == Sum(s, Lamports())
  {
    hide Sum, L.SystemTransfer;
    var i := Get(s, k);
    var a := i.data.token;
    var grown := s[k := i.(dataLen := needed)];
    SameLamports(s, k, i.(dataLen := needed));
    var reserve := ctx.rent(needed);
    var current := i.lamports - (if a.native.Some? then a.amount else 0);
    var paid := if reserve > current then L.SystemTransfer(grown, payer, k, reserve - current).value else grown;
    if reserve > current { SystemTransferLamports(grown, payer, k, reserve - current); }
    if a.native.Some? { SameLamports(paid, k, L.WithToken(Get(paid, k), a.(native := Some(reserve)))); }
  }

  lemma {:induction false} HarvestLamports(s: State, mintKey: Pubkey, sources: seq<Pubkey>)
    requires Get(s, mintKey).data.MintData? && L.HarvestAll(s, mintKey, sources).Ok?
    ensures Sum(L.HarvestAll(s, mintKey, sources).value, Lamports()) == Sum(s, Lamports())
  {
    hide Sum;
    if sources != [] {
      var k := sources[|sources| - 1];
      var t := L.HarvestAll(s, mintKey, sources[..|sources| - 1]).value;
      HarvestLamports(s, mintKey, sources[..|sources| - 1]);
      var t' := L.HarvestOne(t, mintKey, k).value;
      if L.Harvestable(t, mintKey, k) { MovedLamports(t, k, Get(t', k), mintKey, Get(t', mintKey)); }
    }
  }

  lemma {:induction false} WithdrawLamports(s: State, mintKey: Pubkey, dest: Pubkey, sources: seq<Pubkey>)
    requires Get(s, dest).data.TokenData? && L.WithdrawAll(s, mintKey, dest, sources).Ok?
    ensures Sum(L.WithdrawAll(s, mintKey, dest, sources).value, Lamports()) == Sum(s, Lamports())
  {
    hide Sum;
    if sources != [] {
      var k := sources[|sources| - 1];
      var t := L.WithdrawAll(s, mintKey, dest, sources[..|sources| - 1]).value;
      WithdrawLamports(s, mintKey, dest, sources[..|sources| - 1]);
      var t' := L.WithdrawOne(t, mintKey, dest, k).value;
      if k == dest {
        SameLamports(t, dest, Get(t', dest));
      } else if L.Harvestable(t, mintKey, k) {
        MovedLamports(t, k, Get(t', k), dest, Get(t', dest));
      }
    }
  }

  lemma LamportsOfMoves(s: State, ctx: Ctx, i: Instr)
    requires (i.Transfer? || i.MintTo? || i.Burn? || i.CloseAccount?) && Process(s, ctx, i).Ok?
    ensures Sum(Process(s, ctx, i).value, Lamports()) == Sum(s, Lamports())
  {
    hide Process, Sum, L.AuthorizeDebit, BurnDebit, Terms, L.CheckCloseMint, L.CheckCloseToken;
    var s' := Process(s, ctx, i).value;
    match i
    case Transfer(_, _, _, _, _, _, _) =>
      if i.account == i.dest {
        SelfTransfer(s, ctx, i);
      } else {
        var a', fee := TransferParts(s, ctx, i);
        MovedLamports(s, i.account, Get(s', i.account), i.dest, Get(s', i.dest));
      }
    case MintTo(_, _, _, _, _, _) =>
      MintToParts(s, ctx, i);
      MovedLamports(s, i.dest, Get(s', i.dest), i.mint, Get(s', i.mint));
    case Burn(_, _, _, _, _, _) =>
      var a' := BurnParts(s, ctx, i);
      MovedLamports(s, i.account, Get(s', i.account), i.mint, Get(s', i.mint));
    case CloseAccount(_, _, _, _) =>
      CloseParts(s, ctx, i);
      MovedLamports(s, i.dest, Get(s', i.dest), i.account, ABSENT);
  }

  lemma LamportsOfTransfers(s: State, ctx: Ctx, i: Instr)
    requires (i.WithdrawExcessLamports? || i.Reallocate? || i.CreateNativeMint?) && Process(s, ctx, i).Ok?
    ensures Sum(Process(s, ctx, i).value, Lamports()) == Sum(s, Lamports())
  {
    hide Sum, Multisigs.ValidateOwner, L.CheckWithdrawExcess, TryCalculateAccountLen, L.SystemTransfer, L.Grow;
    match i
    case WithdrawExcessLamports(k, dest, _, _) =>
      var ki := Get(s, k).(lamports := ctx.rent(Get(s, k).dataLen));
      MovedLamports(s, k, ki, dest, Get(Process(s, ctx, i).value, dest));
    case Reallocate(k, payer, _, _, newTypes) =>
      if Process(s, ctx, i).value != s {
        GrowLamports(s, ctx, k, payer,
                     TryCalculateAccountLen(AccountBase, Get(s, k).data.token.types + newTypes).value);
      }
    case CreateNativeMint(payer) =>
      var have, reserve := Get(s, NATIVE_MINT).lamports, ctx.rent(MINT_LEN);
      var diff := if reserve > have then reserve - have else 0;
      SystemTransferLamports(s, payer, NATIVE_MINT, diff);
      SameLamports(L.SystemTransfer(s, payer, NATIVE_MINT, diff).value, NATIVE_MINT,
                   Get(Process(s, ctx, i).value, NATIVE_MINT));
  }

  lemma LamportsOfFees(s: State, ctx: Ctx, i: Instr)
    requires (i.WithdrawWithheldFromMint? || i.HarvestWithheldToMint? || i.WithdrawWithheldFromAccounts?)
        && Process(s, ctx, i).Ok?
    ensures Sum(Process(s, ctx, i).value, Lamports()) == Sum(s, Lamports())
  {
    hide Sum, L.CheckWithdrawal, L.HarvestAll, L.WithdrawAll;
    match i
    case HarvestWithheldToMint(m, sources) => HarvestLamports(s, m, sources);
    case WithdrawWithheldFromAccounts(m, dest, a, ss, sources) =>
      WithdrawalChecked(s, m, dest, a, ss);
      WithdrawLamports(s, m, dest, sources);
    case WithdrawWithheldFromMint(m, dest, a, ss) =>
      WithdrawalChecked(s, m, dest, a, ss);
      var s' := Process(s, ctx, i).value;
      MovedLamports(s, m, Get(s', m), dest, Get(s', dest));
  }

  /** No instruction creates or destroys lamports. */
  lemma LamportsConserved(s: State, ctx: Ctx, i: Instr)
    requires Process(s, ctx, i).Ok?
    ensures Sum(Process(s, ctx, i).value, Lamports()) == Sum(s, Lamports())
  {
    hide Process, Sum;
    if Target(i).Some? {
      SingleTarget(s, ctx, i);
      SameLamports(s, Target(i).value, Get(Process(s, ctx, i).value, Target(i).value));
    } else if i.Transfer? || i.MintTo? || i.Burn? || i.CloseAccount? {
      LamportsOfMoves(s, ctx, i);
    } else if i.WithdrawExcessLamports? || i.Reallocate? || i.CreateNativeMint? {
      LamportsOfTransfers(s, ctx, i);
    } else {
      LamportsOfFees(s, ctx, i);
    }
  }
}
