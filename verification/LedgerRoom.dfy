/** Room for extensions: an account holds each type once, and a reallocation makes room for every type it names. */
module LedgerRoom {
  import opened Bytes
  import opened Common
  import opened ExtensionTypes
  import opened LedgerState
  import opened LedgerRuns
  import opened LedgerGood
  import opened LedgerBalance
  import opened LedgerTokens
  import opened LedgerTheorems
  import opened LedgerConditions
  import opened LedgerWithheld
  import opened LedgerEffects
  import opened LedgerSetup
  import Multisigs
  import L = Ledger

  /** No extension type is held twice. */
  predicate Distinct(d: Data) {
    match d
    case Blank(types, _) => NoDuplicates(types)
    case TokenData(t) => NoDuplicates(t.types)
    case MintData(m) => NoDuplicates(m.types)
    case _ => true
  }

  lemma WithDistinct(types: seq<ExtensionType>, t: ExtensionType)
    requires NoDuplicates(types)
    ensures NoDuplicates(With(types, t))
  {
  }

  lemma DistinctSetup(s: State, ctx: Ctx, i: Instr)
    requires Initializes(i) && Process(s, ctx, i).Ok? && Distinct(Get(s, Target(i).value).data)
    ensures Distinct(Get(Process(s, ctx, i).value, Target(i).value).data)
  {
    hide Process, NoDuplicates, With, WithAll;
    if InitializesExtension(i) {
      StoredBy(s, ctx, i);
      WithDistinct(Get(s, i.mint).data.types, Stores(s, ctx, i).0);
    } else if i.InitializeMint? {
      MintTakesOver(s, ctx, i);
    } else if i.InitializeAccount? {
      NewAccountLeaves(s, ctx, i);
    } else if i.InitializeMultisig? {
      NewMultisigLeaves(s, ctx, i);
    } else {
      ImmutableOwnerLeaves(s, ctx, i);
      WithDistinct(Get(s, i.account).data.types, IMMUTABLE_OWNER);
    }
  }

  lemma DistinctEdit(s: State, ctx: Ctx, i: Instr)
    requires !Initializes(i) && Target(i).Some? && Process(s, ctx, i).Ok? && Distinct(Get(s, Target(i).value).data)
    ensures Distinct(Get(Process(s, ctx, i).value, Target(i).value).data)
  {
    hide Process, NoDuplicates, With;
    if i.SetAuthority? {
      DistinctAuthority(s, ctx, i);
    } else if i.UpdateDefaultAccountState? || i.SetTransferFee? {
      EditMintLeaves(s, ctx, i);
    } else {
      EditLeaves(s, ctx, i);
      WithDistinct(Get(s, i.account).data.token.types, CPI_GUARD);
      WithDistinct(Get(s, i.account).data.token.types, MEMO_TRANSFER);
    }
  }

  lemma DistinctAuthority(s: State, ctx: Ctx, i: Instr)
    requires i.SetAuthority? && Process(s, ctx, i).Ok? && Distinct(Get(s, i.account).data)
    ensures Distinct(Get(Process(s, ctx, i).value, i.account).data)
  {
    hide Multisigs.ValidateOwner, L.SetTokenAuthority, L.SetMintAuthority, AuthorityAt, NoDuplicates;
    if HasToken(s, i.account) {
      SetTokenAuthorityMeans(s, ctx, i);
    } else {
      var m := Get(s, i.account).data.mint;
      SetMintAuthorityMeans(s, m, i.kind, i.newAuthority, i.authority, i.signers);
    }
  }

  lemma DistinctMoves(s: State, ctx: Ctx, i: Instr, k: Pubkey)
    requires i.Transfer? || i.MintTo? || i.Burn? || i.CloseAccount? || i.WithdrawExcessLamports?
    requires Process(s, ctx, i).Ok? && Distinct(Get(s, k).data)
    ensures Distinct(Get(Process(s, ctx, i).value, k).data)
  {
    hide Process, NoDuplicates, L.AuthorizeDebit, Terms, BurnDebit, L.CheckCloseToken, L.CheckCloseMint;
    match i
    case Transfer(_, _, _, _, _, _, _) =>
      if i.account == i.dest { SelfTransfer(s, ctx, i); } else { var a', fee := TransferParts(s, ctx, i); }
    case MintTo(_, _, _, _, _, _) => MintToParts(s, ctx, i);
    case Burn(_, _, _, _, _, _) => var a' := BurnParts(s, ctx, i);
    case CloseAccount(_, _, _, _) => CloseLeaves(s, ctx, i); NothingIsDistinct();
    case WithdrawExcessLamports(_, _, _, _) => WithdrawExcessLeaves(s, ctx, i);
  }

  lemma NothingIsDistinct()
    ensures Distinct(ZEROED) && Distinct(MintData(Mint.Mint(None, 0, 9, None, [], NO_MINT_EXT)))
  {
  }

  lemma DistinctGrown(s: State, ctx: Ctx, i: Instr, k: Pubkey)
    requires (i.Reallocate? || i.CreateNativeMint?) && Process(s, ctx, i).Ok? && Distinct(Get(s, k).data)
    ensures Distinct(Get(Process(s, ctx, i).value, k).data)
  {
    hide NoDuplicates, L.CreateNativeMint, TryCalculateAccountLen, L.Grow, Multisigs.ValidateOwner, Missing;
    if i.CreateNativeMint? {
      CreateNativeLeaves(s, ctx, i);
      NothingIsDistinct();
    } else {
      var needed := TryCalculateAccountLen(AccountBase, Get(s, i.account).data.token.types + i.newTypes).value;
      if needed > Get(s, i.account).dataLen {
        GrowLeaves(s, ctx, i.account, i.payer, needed);
      }
    }
  }

  lemma DistinctFees(s: State, ctx: Ctx, i: Instr, k: Pubkey)
    requires i.WithdrawWithheldFromMint? || i.HarvestWithheldToMint? || i.WithdrawWithheldFromAccounts?
    requires Process(s, ctx, i).Ok? && Distinct(Get(s, k).data)
    ensures Distinct(Get(Process(s, ctx, i).value, k).data)
  {
    hide Process, NoDuplicates, ToTake;
    assert Get(s, k) == Get(s, k);
    if i.WithdrawWithheldFromMint? { WithdrawFromMintLeaves(s, ctx, i); } else { TakeLeaves(s, ctx, i); }
  }

  lemma DistinctStep(s: State, ctx: Ctx, i: Instr, k: Pubkey)
    requires Process(s, ctx, i).Ok? && Distinct(Get(s, k).data)
    ensures Distinct(Get(Process(s, ctx, i).value, k).data)
  {
    hide Process, Distinct;
    if Target(i).Some? {
      SingleTarget(s, ctx, i);
      if Target(i) == Some(k) {
        if Initializes(i) { DistinctSetup(s, ctx, i); } else { DistinctEdit(s, ctx, i); }
      }
    } else if i.Reallocate? || i.CreateNativeMint? {
      DistinctGrown(s, ctx, i, k);
    } else if i.WithdrawWithheldFromMint? || i.HarvestWithheldToMint? || i.WithdrawWithheldFromAccounts? {
      DistinctFees(s, ctx, i, k);
    } else {
      DistinctMoves(s, ctx, i, k);
    }
  }

  /** Every account of the program holds each type once. */
  ghost predicate AllDistinct(s: State) {
    forall k :: Get(s, k).owner == TOKEN_PROGRAM ==> Distinct(Get(s, k).data)
  }

  lemma AllDistinctNext(s: State, e: Step)
    requires AllDistinct(s) && Good(s)
    ensures AllDistinct(Next(s, e))
  {
    hide Process, Distinct, Good, RuntimeAccepts;
    var s' := Next(s, e);
    forall k | Get(s', k).owner == TOKEN_PROGRAM
      ensures Distinct(Get(s', k).data)
    {
      assert Get(s, k).owner == TOKEN_PROGRAM ==> Distinct(Get(s, k).data);
      match e
      case Call(ctx, i) =>
        if Commits(s, ctx, i) {
          WasDistinct(s, ctx, i, k);
          DistinctStep(s, ctx, i, k);
        }
      case Outside(j, x) =>
        NothingIsDistinct();
        assert k == j && s' != s ==> x.data == ZEROED || x.data == Get(s, k).data;
    }
  }

  /** An account that belongs to the program after a step belonged to it before, or was the empty native mint. */
  lemma WasDistinct(s: State, ctx: Ctx, i: Instr, k: Pubkey)
    requires Good(s) && AllDistinct(s) && Commits(s, ctx, i)
    requires Get(Process(s, ctx, i).value, k).owner == TOKEN_PROGRAM
    ensures Distinct(Get(s, k).data)
  {
    hide Process, Distinct, Good;
    if Get(s, k).owner != TOKEN_PROGRAM {
      if k == NATIVE_MINT {
        GoodAt(s, k);
        NothingIsDistinct();
      } else if k in SystemChanges(i) {
        PayerStaysOut(s, ctx, i, k);
      }
    }
  }

  lemma PayerStaysOut(s: State, ctx: Ctx, i: Instr, k: Pubkey)
    requires k in SystemChanges(i) && k != NATIVE_MINT && Process(s, ctx, i).Ok?
    ensures Get(Process(s, ctx, i).value, k).owner == Get(s, k).owner
  {
    hide L.CreateNativeMint, TryCalculateAccountLen, L.Grow, Multisigs.ValidateOwner, Missing;
    if i.CreateNativeMint? {
      CreateNativeLeaves(s, ctx, i);
    } else {
      var needed := TryCalculateAccountLen(AccountBase, Get(s, i.account).data.token.types + i.newTypes).value;
      if needed > Get(s, i.account).dataLen {
        GrowLeaves(s, ctx, i.account, i.payer, needed);
      }
    }
  }

  /** Over every run no account of the program holds an extension type twice. */
  lemma {:induction false} TypesDistinct(s: State, es: seq<Step>)
    requires Genesis(s)
    ensures AllDistinct(Run(s, es))
  {
    hide AllDistinct, Good, Next, Genesis;
    if es == [] {
      assert AllDistinct(s) by { NobodyYet(s); }
    } else {
      TypesDistinct(s, es[..|es| - 1]);
      InvAlong(s, es[..|es| - 1]);
      InvGood(Run(s, es[..|es| - 1]));
      AllDistinctNext(Run(s, es[..|es| - 1]), es[|es| - 1]);
    }
  }

  lemma NobodyYet(s: State)
    requires Genesis(s)
    ensures AllDistinct(s)
  {
  }

  // ------------------------------------------------------------------ reallocation

  /** All types of a list with those held need no more than the length calculated for both. */
  lemma RoomAsCalculated(types: seq<ExtensionType>, ts: seq<ExtensionType>, dataLen: nat)
    requires NoDuplicates(types) && TryCalculateAccountLen(AccountBase, types + ts).Ok?
    requires TryCalculateAccountLen(AccountBase, types + ts).value <= dataLen
    ensures InitExtensions(dataLen, types, ts).Ok?
  {
    hide InitExtensions, SumTlvLen, NoDuplicates;
    ExtensionsFit(dataLen, types, ts);
    SumIgnoresOrder(WithAll(types, ts), Dedupe(types + ts));
  }

  /**
   After a reallocation that succeeds in any reachable state, every type it names can be initialised in the account,
   in the order given, one after the other.
   */
  lemma ReallocateServes(s: State, es: seq<Step>, ctx: Ctx, i: Instr)
    requires Genesis(s) && i.Reallocate? && IsToken(Run(s, es), i.account) && Process(Run(s, es), ctx, i).Ok?
    ensures var t' := Process(Run(s, es), ctx, i).value;
            && HasToken(t', i.account)
            && InitExtensions(Get(t', i.account).dataLen, Get(t', i.account).data.token.types, i.newTypes).Ok?
  {
    hide Process, Run, Genesis, TryCalculateAccountLen, InitExtensions, NoDuplicates;
    TypesDistinct(s, es);
    ReallocateMakesRoom(Run(s, es), ctx, i);
    var t' := Process(Run(s, es), ctx, i).value;
    RoomAsCalculated(Get(t', i.account).data.token.types, i.newTypes, Get(t', i.account).dataLen);
  }
}
