/**
 When an instruction succeeds: what a caller checks before the call, in no particular order, and without the arithmetic
 that cannot fail. Each condition holds if and only if the instruction succeeds.
 */
module LedgerConditions {
  import opened Bytes
  import opened Common
  import opened ExtensionTypes
  import opened TransferFees
  import opened LedgerState
  import opened LedgerSums
  import opened LedgerRuns
  import opened LedgerGood
  import opened LedgerBalance
  import opened LedgerBounds
  import opened LedgerTokens
  import Multisigs
  import L = Ledger

  /** The authority speaks for `p`. */
  predicate Agrees(s: State, p: Pubkey, authority: Signer, signers: seq<Signer>) {
    Multisigs.ValidateOwner(s, p, authority, signers).Ok?
  }

  predicate HasToken(s: State, k: Pubkey) {
    Get(s, k).data.TokenData?
  }

  predicate HasMint(s: State, k: Pubkey) {
    Get(s, k).data.MintData?
  }

  // ------------------------------------------------------------------ transfers and burns

  /** A mint named by the caller is the account's own, with the decimals expected. */
  predicate NamesOwnMint(s: State, a: Token, checked: Option<Checked>) {
    checked.Some? ==>
      var c := checked.value;
      c.mint == a.mint && HasMint(s, c.mint) && Get(s, c.mint).data.mint.decimals == c.decimals
  }

  /** Only an account that neither bears fees nor has a hook can be debited without naming its mint. */
  predicate MayOmitMint(a: Token, checked: Option<Checked>) {
    checked.None? ==> TRANSFER_FEE_AMOUNT !in a.types && TRANSFER_HOOK_ACCOUNT !in a.types
  }

  /** What the mint named by a transfer says; a transfer that names none goes by no rules of the mint. */
  function MintNamed(s: State, i: Instr): Option<Mint>
    requires i.Transfer?
  {
    if i.checked.Some? && HasMint(s, i.checked.value.mint) then Some(Get(s, i.checked.value.mint).data.mint) else None
  }

  /** The fee in force for the amount. */
  function FeeDue(s: State, ctx: Ctx, i: Instr): Option<u64>
    requires i.Transfer?
  {
    match MintNamed(s, i)
    case Some(m) =>
      if TRANSFER_FEE_CONFIG in m.types
      then CalculateFee(EpochFee(m.ext.fee.older, m.ext.fee.newer, ctx.epoch), i.amount) else Some(0)
    case None => Some(0)
  }

  /** The permanent delegate, the delegate within its allowance, or, if no delegate, the owner outside the guard. */
  predicate MayDebit(s: State, ctx: Ctx, a: Token, permanent: Option<Pubkey>, authority: Signer, signers: seq<Signer>,
                     amount: u64)
  {
    && Agrees(s, authority.key, authority, signers)
    && (|| permanent == Some(authority.key)
        || (a.delegate == Some(authority.key) && amount <= a.delegatedAmount)
        || (a.delegate != Some(authority.key) && a.owner == authority.key && !(Locked(a) && ctx.inCpi)))
  }

  /** The destination takes the amount. */
  predicate MayReceive(s: State, ctx: Ctx, i: Instr)
    requires i.Transfer? && IsToken(s, i.account)
  {
    var a := TokenAt(s, i.account);
    && IsToken(s, i.dest)
    && var d := TokenAt(s, i.dest);
       && d.mint == a.mint && !d.frozen
       && (MEMO_TRANSFER in d.types && d.memoRequired ==> ctx.memoBefore)
       && (FeeDue(s, ctx, i) != Some(0) ==> TRANSFER_FEE_AMOUNT in d.types)
       && (a.native.Some? ==> Get(s, i.dest).lamports + i.amount <= U64_MAX)
       && (MintNamed(s, i).Some? && HookProgramOf(MintNamed(s, i).value).Some? ==>
             ctx.hookSucceeds && TRANSFER_HOOK_ACCOUNT in a.types && TRANSFER_HOOK_ACCOUNT in d.types)
  }

  predicate MayTransfer(s: State, ctx: Ctx, i: Instr)
    requires i.Transfer?
  {
    && IsToken(s, i.account)
    && var a := TokenAt(s, i.account);
       var permanent := if MintNamed(s, i).Some? then PermanentDelegateOf(MintNamed(s, i).value) else None;
       && i.amount <= a.amount && !a.frozen && NON_TRANSFERABLE_ACCOUNT !in a.types
       && NamesOwnMint(s, a, i.checked)
       && MayOmitMint(a, i.checked)
       && (i.expectedFee.Some? ==> i.expectedFee == FeeDue(s, ctx, i))
       && MayDebit(s, ctx, a, permanent, i.authority, i.signers, i.amount)
       && (i.dest == i.account || MayReceive(s, ctx, i))
  }

  lemma DebitIff(s: State, ctx: Ctx, a: Token, permanent: Option<Pubkey>, authority: Signer, signers: seq<Signer>,
                 amount: u64, charge: bool, blocked: Error)
    ensures L.AuthorizeDebit(s, ctx, a, permanent, authority, signers, amount, charge, blocked).Ok? <==>
              MayDebit(s, ctx, a, permanent, authority, signers, amount)
  {
    hide Multisigs.Authorizes;
  }

  /** What a transfer goes by, when the mint and decimals agree. */
  lemma TermsIff(s: State, ctx: Ctx, i: Instr)
    requires Inv(s) && i.Transfer? && IsToken(s, i.account) && i.amount <= TokenAt(s, i.account).amount
    ensures var a, r := TokenAt(s, i.account), Terms(s, ctx, i);
            && (r.Ok? <==> NamesOwnMint(s, a, i.checked) && MayOmitMint(a, i.checked))
            && (r.Ok? ==>
                  && FeeDue(s, ctx, i) == Some(r.value.0) && r.value.0 <= i.amount
                  && r.value.1 == (if MintNamed(s, i).Some? then PermanentDelegateOf(MintNamed(s, i).value) else None)
                  && r.value.2 == (if MintNamed(s, i).Some? then HookProgramOf(MintNamed(s, i).value) else None))
  {
    hide Good, CalculateFee;
    if TokenAt(s, i.account).mint == NATIVE_MINT {
      GoodAt(s, NATIVE_MINT);
    } else {
      FeeFits(s, ctx, i);
    }
  }

  /** In a reachable state the part of a transfer behind the source's checks fails only on the destination's side. */
  lemma MoveIff(s: State, ctx: Ctx, i: Instr, a': Token, fee: u64, hook: Option<Pubkey>)
    requires Inv(s) && i.Transfer? && IsToken(s, i.account) && i.account != i.dest
    requires var a := TokenAt(s, i.account);
             a' == a.(delegate := a'.delegate, delegatedAmount := a'.delegatedAmount) && fee <= i.amount <= a.amount
    requires FeeDue(s, ctx, i) == Some(fee)
    requires hook == if MintNamed(s, i).Some? then HookProgramOf(MintNamed(s, i).value) else None
    requires TokenAt(s, i.account).mint == NATIVE_MINT ==> fee == 0
    ensures MayReceive(s, ctx, i) <==>
              Get(s, i.dest).owner == TOKEN_PROGRAM
                  && L.Move(s, ctx, i.account, a', i.dest, i.amount, fee, hook).Ok?
  {
    hide Good, FeeDue, HookProgramOf, MintNamed;
    var a := TokenAt(s, i.account);
    GoodAt(s, i.account);
    GoodAt(s, i.dest);
    if IsToken(s, i.dest) && a.mint == TokenAt(s, i.dest).mint && a.native.None? {
      HeldPair(s, a.mint, i.account, i.dest);
      HeldAtMostSupply(s, a.mint, i.account);
    }
  }

  /** A native mint charges nothing. */
  lemma NativeIsFree(s: State, ctx: Ctx, i: Instr)
    requires Good(s) && i.Transfer? && IsToken(s, i.account) && TokenAt(s, i.account).mint == NATIVE_MINT
    requires NamesOwnMint(s, TokenAt(s, i.account), i.checked)
    ensures FeeDue(s, ctx, i) == Some(0)
  {
    hide Good;
    GoodAt(s, NATIVE_MINT);
  }

  /** In a reachable state a transfer succeeds if and only if the caller's conditions hold. */
  lemma TransferIff(s: State, ctx: Ctx, i: Instr)
    requires Inv(s) && i.Transfer?
    ensures Process(s, ctx, i).Ok? <==> MayTransfer(s, ctx, i)
  {
    hide L.AuthorizeDebit, L.Move, L.TransferTerms, Inv, MayDebit, MayReceive, FeeDue, MintNamed;
    if IsToken(s, i.account) && i.amount <= TokenAt(s, i.account).amount {
      var a := TokenAt(s, i.account);
      TermsIff(s, ctx, i);
      if Terms(s, ctx, i).Ok? {
        var (fee, permanent, hook) := Terms(s, ctx, i).value;
        DebitIff(s, ctx, a, permanent, i.authority, i.signers, i.amount, i.account != i.dest, CpiGuardTransferBlocked);
        var r := L.AuthorizeDebit(s, ctx, a, permanent, i.authority, i.signers, i.amount, i.account != i.dest,
                                  CpiGuardTransferBlocked);
        if r.Ok? && i.account != i.dest {
          DebitKeepsAmount(s, ctx, a, permanent, i.authority, i.signers, i.amount);
          if a.mint == NATIVE_MINT { NativeIsFree(s, ctx, i) by { InvGood(s); } }
          MoveIff(s, ctx, i, r.value, fee, hook);
        }
      }
    }
  }

  lemma InvGood(s: State)
    requires Inv(s)
    ensures Good(s)
  {
  }

  predicate MayBurn(s: State, ctx: Ctx, i: Instr)
    requires i.Burn?
  {
    && IsToken(s, i.account) && IsMint(s, i.mint)
    && var a, m := TokenAt(s, i.account), MintAt(s, i.mint);
       && a.mint == i.mint && a.native.None? && !a.frozen && i.amount <= a.amount
       && (i.expectedDecimals.Some? ==> i.expectedDecimals.value == m.decimals)
       && (|| a.owner in {SYSTEM_PROGRAM, INCINERATOR}
           || MayDebit(s, ctx, a, PermanentDelegateOf(m), i.authority, i.signers, i.amount))
  }

  /** In a reachable state a burn succeeds if and only if the caller's conditions hold: the supply always suffices. */
  lemma BurnIff(s: State, ctx: Ctx, i: Instr)
    requires Inv(s) && i.Burn?
    ensures Process(s, ctx, i).Ok? <==> MayBurn(s, ctx, i)
  {
    hide L.AuthorizeDebit, Good, MayDebit;
    if IsToken(s, i.account) && IsMint(s, i.mint) {
      var a, m := TokenAt(s, i.account), MintAt(s, i.mint);
      DebitIff(s, ctx, a, PermanentDelegateOf(m), i.authority, i.signers, i.amount, true, CpiGuardBurnBlocked);
      if a.mint == i.mint && a.native.None? {
        NativeIff(s, i.account);
        HeldAtMostSupply(s, i.mint, i.account);
      }
    }
  }

  /** Minting succeeds if and only if the caller's conditions hold and the new supply fits. */
  lemma MintToIff(s: State, ctx: Ctx, i: Instr)
    requires Inv(s) && i.MintTo?
    ensures Process(s, ctx, i).Ok? <==> MayMint(s, i) && MintAt(s, i.mint).supply + i.amount <= U64_MAX
  {
    hide Multisigs.ValidateOwner, Good;
    if MayMint(s, i) { MintToOverflowsIff(s, ctx, i); }
  }

  // ------------------------------------------------------------------ closing

  predicate MayClose(s: State, ctx: Ctx, i: Instr)
    requires i.CloseAccount?
  {
    && i.account != i.dest && Get(s, i.account).lamports + Get(s, i.dest).lamports <= U64_MAX
    && match Get(s, i.account).data
       case TokenData(a) =>
         && (a.native.Some? || a.amount == 0) && (TRANSFER_FEE_AMOUNT in a.types ==> a.withheld == 0)
         && (if a.owner in {SYSTEM_PROGRAM, INCINERATOR} then i.dest == INCINERATOR
             else && (Locked(a) && ctx.inCpi ==> i.dest == a.owner)
                  && Agrees(s, if a.closeAuthority.Some? then a.closeAuthority.value else a.owner, i.authority,
                            i.signers))
       case MintData(m) =>
         && m.supply == 0 && AuthorityAt(m, AuthorityType.CloseMint).Some?
         && Agrees(s, AuthorityAt(m, AuthorityType.CloseMint).value, i.authority, i.signers)
       case _ => false
  }

  /** Closing succeeds if and only if the caller's conditions hold; a native account may still hold tokens. */
  lemma CloseIff(s: State, ctx: Ctx, i: Instr)
    requires i.CloseAccount?
    ensures Process(s, ctx, i).Ok? <==> MayClose(s, ctx, i)
  {
    hide Multisigs.ValidateOwner;
  }

  // ------------------------------------------------------------------ initialisation

  /** An account without a base state, of a length the base allows, and so far only with extensions of its kind. */
  predicate IsEmpty(i: Info, base: Base) {
    && i.data.Blank? && i.dataLen != MULTISIG_LEN
    && (i.dataLen == base.Size() || i.dataLen > BASE_ACCOUNT_AND_TYPE_LENGTH)
    && (i.data.types != [] ==> AccountTypeOf(i.data.types[0]) == base.Type())
  }

  function With(types: seq<ExtensionType>, t: ExtensionType): seq<ExtensionType> {
    if t in types then types else types + [t]
  }

  /** The types held after all of `ts` were initialised, each once. */
  function WithAll(types: seq<ExtensionType>, ts: seq<ExtensionType>): (r: seq<ExtensionType>)
    ensures types <= r && forall t :: t in r <==> t in types || t in ts
    ensures NoDuplicates(types) ==> NoDuplicates(r)
  {
    if ts == [] then types
    else
      assert ts == ts[..|ts| - 1] + [ts[|ts| - 1]];
      With(WithAll(types, ts[..|ts| - 1]), ts[|ts| - 1])
  }

  lemma ExtensionFits(dataLen: nat, types: seq<ExtensionType>, t: ExtensionType)
    ensures InitExtension(dataLen, types, t).Ok? <==> t in types || Room(types + [t], dataLen)
    ensures InitExtension(dataLen, types, t).Ok? ==> InitExtension(dataLen, types, t).value == With(types, t)
  {
    assert (types + [t])[..|types|] == types;
  }

  /** Initialising a list of extensions succeeds if and only if there is room for all of them at once. */
  lemma {:induction false} ExtensionsFit(dataLen: nat, types: seq<ExtensionType>, ts: seq<ExtensionType>)
    ensures InitExtensions(dataLen, types, ts).Ok? <==>
              WithAll(types, ts) == types || Room(WithAll(types, ts), dataLen)
    ensures InitExtensions(dataLen, types, ts).Ok? ==> InitExtensions(dataLen, types, ts).value == WithAll(types, ts)
  {
    hide InitExtension;
    if ts != [] {
      var n := |ts| - 1;
      ExtensionsFit(dataLen, types, ts[..n]);
      var before := WithAll(types, ts[..n]);
      ExtensionFits(dataLen, before, ts[n]);
      assert (before + [ts[n]])[..|before|] == before;
    }
  }

  lemma EmptyIff(i: Info, base: Base)
    ensures UnpackUninitialized(i, base).Ok? <==> IsEmpty(i, base)
    ensures IsEmpty(i, base) ==> i.data.Blank?
    ensures UnpackUninitialized(i, base).Ok? ==> UnpackUninitialized(i, base).value == i.data.types
  {
  }

  predicate MayInitialize(s: State, ctx: Ctx, i: Instr)
    requires i.InitializeMint? || i.InitializeAccount? || i.InitializeMultisig? || i.InitializeImmutableOwner?
  {
    match i
    case InitializeMint(k, _, _, freeze) =>
      var x := Get(s, k);
      && IsEmpty(x, MintBase) && x.lamports >= ctx.rent(x.dataLen)
      && TryCalculateAccountLen(MintBase, x.data.types) == Ok(x.dataLen)
      && (CONFIDENTIAL_TRANSFER_FEE_CONFIG in x.data.types <==>
            TRANSFER_FEE_CONFIG in x.data.types && CONFIDENTIAL_TRANSFER_MINT in x.data.types)
      && (DEFAULT_ACCOUNT_STATE in x.data.types && x.data.ext.defaultFrozen ==> freeze.Some?)
    case InitializeAccount(k, m, _) =>
      var x := Get(s, k);
      && IsEmpty(x, AccountBase) && x.lamports >= ctx.rent(x.dataLen) && IsMint(s, m)
      && var required := RequiredInitAccountExtensions(MintAt(s, m).types);
         var types := WithAll(x.data.types, required);
         && TryCalculateAccountLen(AccountBase, required).Ok?
         && TryCalculateAccountLen(AccountBase, required).value <= x.dataLen
         && (types == x.data.types || Room(types, x.dataLen))
    case InitializeMultisig(k, m, keys) =>
      var x := Get(s, k);
      && x.dataLen == MULTISIG_LEN && x.data == ZEROED && x.lamports >= ctx.rent(x.dataLen)
      && 1 <= m <= MAX_SIGNERS && 1 <= |keys| <= MAX_SIGNERS
    case InitializeImmutableOwner(k) =>
      var x := Get(s, k);
      && IsEmpty(x, AccountBase)
      && (IMMUTABLE_OWNER in x.data.types || Room(x.data.types + [IMMUTABLE_OWNER], x.dataLen))
  }

  lemma NewMintIff(s: State, ctx: Ctx, i: Instr)
    requires i.InitializeMint?
    ensures Process(s, ctx, i).Ok? <==> MayInitialize(s, ctx, i)
  {
    hide UnpackUninitialized, IsEmpty, TryCalculateAccountLen;
    EmptyIff(Get(s, i.mint), MintBase);
  }

  lemma NewAccountIff(s: State, ctx: Ctx, i: Instr)
    requires i.InitializeAccount?
    ensures Process(s, ctx, i).Ok? <==> MayInitialize(s, ctx, i)
  {
    hide UnpackUninitialized, IsEmpty, InitExtensions, TryCalculateAccountLen, WithAll, Room,
         RequiredInitAccountExtensions;
    var x := Get(s, i.account);
    EmptyIff(x, AccountBase);
    if IsEmpty(x, AccountBase) && HasMint(s, i.mint) {
      ExtensionsFit(x.dataLen, x.data.types, RequiredInitAccountExtensions(Get(s, i.mint).data.mint.types));
    }
  }

  lemma NewOwnerPinIff(s: State, ctx: Ctx, i: Instr)
    requires i.InitializeImmutableOwner?
    ensures Process(s, ctx, i).Ok? <==> MayInitialize(s, ctx, i)
  {
    hide UnpackUninitialized, IsEmpty, InitExtension, Room;
    var x := Get(s, i.account);
    EmptyIff(x, AccountBase);
    if IsEmpty(x, AccountBase) {
      ExtensionFits(x.dataLen, x.data.types, IMMUTABLE_OWNER);
    }
  }

  /** Initialising succeeds if and only if the account is empty, funded and of a length that fits. */
  lemma InitializeIff(s: State, ctx: Ctx, i: Instr)
    requires i.InitializeMint? || i.InitializeAccount? || i.InitializeMultisig? || i.InitializeImmutableOwner?
    ensures Process(s, ctx, i).Ok? <==> MayInitialize(s, ctx, i)
  {
    hide Process, MayInitialize;
    match i
    case InitializeMint(_, _, _, _) => NewMintIff(s, ctx, i);
    case InitializeAccount(_, _, _) => NewAccountIff(s, ctx, i);
    case InitializeMultisig(_, _, _) => NewMultisigIff(s, ctx, i);
    case InitializeImmutableOwner(_) => NewOwnerPinIff(s, ctx, i);
  }

  /** The truncation of the number of signers never matters: what it lets through fails on storing. */
  lemma NewMultisigIff(s: State, ctx: Ctx, i: Instr)
    requires i.InitializeMultisig?
    ensures Process(s, ctx, i).Ok? <==> MayInitialize(s, ctx, i)
  {
  }

  // ------------------------------------------------------------------ extensions of an empty mint

  /** The extension an instruction initialises. */
  function ExtensionOf(i: Instr): Option<ExtensionType> {
    match i
    case InitializeMintCloseAuthority(_, _) => Some(MINT_CLOSE_AUTHORITY)
    case InitializeNonTransferableMint(_) => Some(NON_TRANSFERABLE)
    case InitializePermanentDelegate(_, _) => Some(PERMANENT_DELEGATE)
    case InitializeDefaultAccountState(_, _) => Some(DEFAULT_ACCOUNT_STATE)
    case InitializeTransferFeeConfig(_, _, _, _, _) => Some(TRANSFER_FEE_CONFIG)
    case InitializeAuthorityExtension(_, t, _, _) => Some(t)
    case _ => None
  }

  /** The values may be stored: no zero key, a legal rate, something to point to, and no hook into this program. */
  predicate LegalValues(i: Instr) {
    match i
    case InitializeMintCloseAuthority(_, a) => a != Some(0)
    case InitializePermanentDelegate(_, d) => d != 0
    case InitializeTransferFeeConfig(_, c, w, basisPoints, _) =>
      c != Some(0) && w != Some(0) && basisPoints <= ONE_IN_BASIS_POINTS
    case InitializeAuthorityExtension(_, t, a, target) =>
      && (t == INTEREST_BEARING_CONFIG
          || (t in {TRANSFER_HOOK, METADATA_POINTER, GROUP_POINTER, GROUP_MEMBER_POINTER}
              && (a.Some? || target.Some?)))
      && (t == TRANSFER_HOOK ==> target != Some(TOKEN_PROGRAM))
    case _ => true
  }

  predicate MayExtend(s: State, i: Instr)
    requires ExtensionOf(i).Some?
  {
    var x, t := Get(s, i.mint), ExtensionOf(i).value;
    IsEmpty(x, MintBase) && LegalValues(i) && (t in x.data.types || Room(x.data.types + [t], x.dataLen))
  }

  lemma StoreExtensionIff(s: State, k: Pubkey, t: ExtensionType, ext: MintExt)
    ensures L.InitMintExtension(s, k, t, ext).Ok? <==>
              IsEmpty(Get(s, k), MintBase)
                  && (t in Get(s, k).data.types || Room(Get(s, k).data.types + [t], Get(s, k).dataLen))
  {
    hide UnpackUninitialized, IsEmpty, InitExtension, Room;
    var x := Get(s, k);
    EmptyIff(x, MintBase);
    if IsEmpty(x, MintBase) {
      ExtensionFits(x.dataLen, x.data.types, t);
    }
  }

  /** Initialising an extension succeeds if and only if the mint is still empty, has room, and the values are legal. */
  lemma ExtendIff(s: State, ctx: Ctx, i: Instr)
    requires ExtensionOf(i).Some?
    ensures Process(s, ctx, i).Ok? <==> MayExtend(s, i)
  {
    hide L.InitMintExtension, L.BlankExt, IsEmpty, Room;
    var ext := L.BlankExt(s, i.mint);
    match i
    case InitializeMintCloseAuthority(k, a) =>
      StoreExtensionIff(s, k, MINT_CLOSE_AUTHORITY, ext.(closeAuthority := a));
    case InitializeNonTransferableMint(k) => StoreExtensionIff(s, k, NON_TRANSFERABLE, ext);
    case InitializePermanentDelegate(k, d) =>
      StoreExtensionIff(s, k, PERMANENT_DELEGATE, ext.(permanentDelegate := Some(d)));
    case InitializeDefaultAccountState(k, f) =>
      StoreExtensionIff(s, k, DEFAULT_ACCOUNT_STATE, ext.(defaultFrozen := f));
    case InitializeTransferFeeConfig(k, c, w, basisPoints, maximumFee) =>
      var fee := TransferFee(ctx.epoch, maximumFee, basisPoints);
      StoreExtensionIff(s, k, TRANSFER_FEE_CONFIG, ext.(fee := FeeConfig(c, w, 0, fee, fee)));
    case InitializeAuthorityExtension(k, t, a, target) =>
      StoreExtensionIff(s, k, t, ext.(authorities := ext.authorities[t := a],
                                      hookProgram := if t == TRANSFER_HOOK then target else ext.hookProgram));
  }

  // ------------------------------------------------------------------ changes of one account

  predicate MayEdit(s: State, ctx: Ctx, i: Instr)
    requires i.Approve? || i.Revoke? || i.ToggleFreeze? || i.ToggleCpiGuard? || i.ToggleMemo? || i.SyncNative?
  {
    && HasToken(s, i.account)
    && var a, len := Get(s, i.account).data.token, Get(s, i.account).dataLen;
       match i
       case Approve(_, checked, _, authority, signers, _) =>
         && !a.frozen && NamesOwnMint(s, a, checked) && !(Locked(a) && ctx.inCpi)
         && Agrees(s, a.owner, authority, signers)
       case Revoke(_, authority, signers) =>
         && !a.frozen && (authority.key == a.owner || a.delegate == Some(authority.key))
         && Agrees(s, authority.key, authority, signers)
       case ToggleFreeze(_, mint, authority, signers, freeze) =>
         && a.frozen != freeze && a.native.None? && a.mint == mint && Thawable(s, mint, authority, signers)
       case ToggleCpiGuard(_, authority, signers, _) =>
         && !ctx.inCpi && (CPI_GUARD in a.types || Room(a.types + [CPI_GUARD], len))
         && Agrees(s, a.owner, authority, signers)
       case ToggleMemo(_, authority, signers, _) =>
         && (MEMO_TRANSFER in a.types || Room(a.types + [MEMO_TRANSFER], len))
         && Agrees(s, a.owner, authority, signers)
       case _ => IsToken(s, i.account) && a.native.Some?
  }

  lemma DelegationIff(s: State, ctx: Ctx, i: Instr)
    requires i.Approve? || i.Revoke? || i.ToggleFreeze?
    ensures Process(s, ctx, i).Ok? <==> MayEdit(s, ctx, i)
  {
    hide Multisigs.Authorizes, Room;
  }

  lemma OptionIff(s: State, ctx: Ctx, i: Instr)
    requires Inv(s) && (i.ToggleCpiGuard? || i.ToggleMemo? || i.SyncNative?)
    ensures Process(s, ctx, i).Ok? <==> MayEdit(s, ctx, i)
  {
    hide Multisigs.ValidateOwner, InitExtension, Room, Inv;
    if HasToken(s, i.account) {
      var a, len := Get(s, i.account).data.token, Get(s, i.account).dataLen;
      ExtensionFits(len, a.types, CPI_GUARD);
      ExtensionFits(len, a.types, MEMO_TRANSFER);
      if IsToken(s, i.account) { NativeCovered(s, i.account); }
    }
  }

  /** An approval, revocation, freeze, thaw, option or synchronisation succeeds if and only if its conditions hold. */
  lemma EditIff(s: State, ctx: Ctx, i: Instr)
    requires Inv(s)
    requires i.Approve? || i.Revoke? || i.ToggleFreeze? || i.ToggleCpiGuard? || i.ToggleMemo? || i.SyncNative?
    ensures Process(s, ctx, i).Ok? <==> MayEdit(s, ctx, i)
  {
    hide Process, MayEdit, Inv;
    if i.Approve? || i.Revoke? || i.ToggleFreeze? { DelegationIff(s, ctx, i); } else { OptionIff(s, ctx, i); }
  }

  lemma NativeCovered(s: State, k: Pubkey)
    requires Inv(s) && IsToken(s, k)
    ensures TokenAt(s, k).native.Some? ==> Get(s, k).lamports >= TokenAt(s, k).native.value + TokenAt(s, k).amount
  {
    GoodAt(s, k);
  }

  predicate MaySetAuthority(s: State, ctx: Ctx, i: Instr)
    requires i.SetAuthority?
  {
    match Get(s, i.account).data
    case TokenData(a) =>
      && !a.frozen
      && if i.kind.AccountOwner? then
           && i.newAuthority.Some? && IMMUTABLE_OWNER !in a.types && !Locked(a)
           && Agrees(s, a.owner, i.authority, i.signers)
         else
           && i.kind.CloseAccountAuthority? && (Locked(a) && ctx.inCpi ==> i.newAuthority.None?)
           && Agrees(s, if a.closeAuthority.Some? then a.closeAuthority.value else a.owner, i.authority, i.signers)
    case MintData(m) =>
      && AuthorityAt(m, i.kind).Some? && Agrees(s, AuthorityAt(m, i.kind).value, i.authority, i.signers)
      && (i.kind.MintTokens? || i.kind.FreezeAccountAuthority? || i.newAuthority != Some(0))
    case _ => false
  }

  lemma SetMintAuthorityIff(s: State, m: Mint, kind: AuthorityType, newAuthority: Option<Pubkey>, authority: Signer,
                            signers: seq<Signer>)
    ensures L.SetMintAuthority(s, m, kind, newAuthority, authority, signers).Ok? <==>
              && AuthorityAt(m, kind).Some? && Agrees(s, AuthorityAt(m, kind).value, authority, signers)
              && (kind.MintTokens? || kind.FreezeAccountAuthority? || newAuthority != Some(0))
  {
    hide Multisigs.ValidateOwner;
  }

  /** Changing an authority succeeds if and only if there is one of that kind, it agrees, and it may be replaced. */
  lemma SetAuthorityIff(s: State, ctx: Ctx, i: Instr)
    requires i.SetAuthority?
    ensures Process(s, ctx, i).Ok? <==> MaySetAuthority(s, ctx, i)
  {
    hide Multisigs.ValidateOwner, AuthorityAt, L.SetMintAuthority;
    if HasMint(s, i.account) {
      SetMintAuthorityIff(s, Get(s, i.account).data.mint, i.kind, i.newAuthority, i.authority, i.signers);
    }
  }

  predicate MayEditMint(s: State, i: Instr)
    requires i.UpdateDefaultAccountState? || i.SetTransferFee?
  {
    && HasMint(s, i.mint)
    && var m := Get(s, i.mint).data.mint;
       if i.UpdateDefaultAccountState? then
         && DEFAULT_ACCOUNT_STATE in m.types && m.freezeAuthority.Some?
         && Agrees(s, m.freezeAuthority.value, i.authority, i.signers)
       else
         && AuthorityAt(m, AuthorityType.TransferFeeConfig).Some? && i.basisPoints <= ONE_IN_BASIS_POINTS
         && Agrees(s, AuthorityAt(m, AuthorityType.TransferFeeConfig).value, i.authority, i.signers)
  }

  lemma EditMintIff(s: State, ctx: Ctx, i: Instr)
    requires i.UpdateDefaultAccountState? || i.SetTransferFee?
    ensures Process(s, ctx, i).Ok? <==> MayEditMint(s, i)
  {
    hide Multisigs.ValidateOwner;
  }

  // ------------------------------------------------------------------ lamports and data length

  /** The payer signs, is a wallet without data, and has the lamports; and the destination can hold them. */
  predicate MayPay(s: State, payer: Signer, dest: Pubkey, lamports: nat) {
    && payer.isSigner && Get(s, payer.key).owner == SYSTEM_PROGRAM && Get(s, payer.key).dataLen == 0
    && lamports <= Get(s, payer.key).lamports
    && (payer.key == dest || Get(s, dest).lamports + lamports <= U64_MAX)
  }

  predicate MayMoveLamports(s: State, ctx: Ctx, i: Instr)
    requires i.WithdrawExcessLamports? || i.CreateNativeMint?
  {
    match i
    case WithdrawExcessLamports(k, dest, authority, signers) =>
      var x := Get(s, k);
      && x.lamports >= ctx.rent(x.dataLen)
      && (dest == k || Get(s, dest).lamports + (x.lamports - ctx.rent(x.dataLen)) <= U64_MAX)
      && (match x.data
          case TokenData(a) => a.native.None? && Agrees(s, a.owner, authority, signers)
          case MintData(m) => m.authority.Some? && Agrees(s, m.authority.value, authority, signers)
          case _ => x.dataLen == MULTISIG_LEN && Agrees(s, k, authority, signers))
    case CreateNativeMint(payer) =>
      var have, reserve := Get(s, NATIVE_MINT).lamports, ctx.rent(MINT_LEN);
      !IsMint(s, NATIVE_MINT) && MayPay(s, payer, NATIVE_MINT, if reserve > have then reserve - have else 0)
  }

  lemma PayIff(s: State, payer: Signer, dest: Pubkey, lamports: nat)
    ensures L.SystemTransfer(s, payer, dest, lamports).Ok? <==> MayPay(s, payer, dest, lamports)
  {
  }

  lemma MoveLamportsIff(s: State, ctx: Ctx, i: Instr)
    requires Good(s) && (i.WithdrawExcessLamports? || i.CreateNativeMint?)
    ensures Process(s, ctx, i).Ok? <==> MayMoveLamports(s, ctx, i)
  {
    hide Multisigs.ValidateOwner, Good, L.SystemTransfer, MayPay;
    if i.CreateNativeMint? {
      var have, reserve := Get(s, NATIVE_MINT).lamports, ctx.rent(MINT_LEN);
      var missing := if reserve > have then reserve - have else 0;
      PayIff(s, i.payer, NATIVE_MINT, missing);
      GoodAt(s, NATIVE_MINT);
      if L.SystemTransfer(s, i.payer, NATIVE_MINT, missing).Ok? {
        SystemTransferKeepsData(s, i.payer, NATIVE_MINT, missing, NATIVE_MINT);
      }
    }
  }

  /** Lamports an account lacks for a length, its native tokens set aside. */
  function Missing(ctx: Ctx, i: Info, needed: nat): nat
    requires i.data.TokenData?
  {
    var free := i.lamports - (if i.data.token.native.Some? then i.data.token.amount else 0);
    if ctx.rent(needed) > free then ctx.rent(needed) - free else 0
  }

  predicate MayReallocate(s: State, ctx: Ctx, i: Instr)
    requires i.Reallocate?
  {
    && HasToken(s, i.account)
    && var x := Get(s, i.account);
       var a := x.data.token;
       && Agrees(s, a.owner, i.authority, i.signers)
       && (forall t :: t in i.newTypes ==> AccountTypeOf(t) == Account)
       && var needed := TryCalculateAccountLen(AccountBase, a.types + i.newTypes);
          && needed.Ok?
          && (needed.value > x.dataLen ==>
                && (a.native.Some? ==> a.amount <= x.lamports)
                && var missing := Missing(ctx, x, needed.value);
                   missing > 0 ==> i.payer.key != i.account && MayPay(s, i.payer, i.account, missing))
  }

  lemma GrowIff(s: State, ctx: Ctx, k: Pubkey, payer: Signer, needed: nat)
    requires HasToken(s, k) && needed > Get(s, k).dataLen
    ensures L.Grow(s, ctx, k, payer, needed).Ok? <==>
              && (Get(s, k).data.token.native.Some? ==> Get(s, k).data.token.amount <= Get(s, k).lamports)
              && var missing := Missing(ctx, Get(s, k), needed);
                 missing > 0 ==> payer.key != k && MayPay(s, payer, k, missing)
  {
    hide L.SystemTransfer;
    var i := Get(s, k);
    var grown := s[k := i.(dataLen := needed)];
    var missing := Missing(ctx, i, needed);
    PayIff(grown, payer, k, missing);
    if L.SystemTransfer(grown, payer, k, missing).Ok? && payer.key != k {
      SystemTransferKeeps(grown, payer, k, missing, k);
    }
  }

  /** Reallocation succeeds if and only if the owner agrees, the types are known, and the missing rent can be paid. */
  lemma ReallocateIff(s: State, ctx: Ctx, i: Instr)
    requires i.Reallocate?
    ensures Process(s, ctx, i).Ok? <==> MayReallocate(s, ctx, i)
  {
    hide Multisigs.ValidateOwner, TryCalculateAccountLen, L.Grow, Missing, MayPay;
    if HasToken(s, i.account) {
      var needed := TryCalculateAccountLen(AccountBase, Get(s, i.account).data.token.types + i.newTypes);
      if needed.Ok? && needed.value > Get(s, i.account).dataLen {
        GrowIff(s, ctx, i.account, i.payer, needed.value);
      }
    }
  }
}
