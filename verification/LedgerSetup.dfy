/** What is initialised on an empty account the mint or token account carries, whatever happens in between. */
module LedgerSetup {
  import opened Bytes
  import opened Common
  import opened ExtensionTypes
  import opened TransferFees
  import opened LedgerState
  import opened LedgerRuns
  import opened LedgerGood
  import opened LedgerBalance
  import opened LedgerTokens
  import opened LedgerTheorems
  import opened LedgerConditions
  import Multisigs
  import L = Ledger

  function Charged(f: TransferFee, amount: u64): Result<u64> {
    match CalculateFee(f, amount)
    case Some(fee) => Ok(fee)
    case None => Err(Overflow)
  }

  /** The mint carries the extension an instruction initialised, with its values. */
  ghost predicate CarriesSetting(m: Mint, ctx: Ctx, i: Instr) {
    match i
    case InitializeMintCloseAuthority(_, a) =>
      MINT_CLOSE_AUTHORITY in m.types && AuthorityAt(m, AuthorityType.CloseMint) == a && a != Some(0)
    case InitializeNonTransferableMint(_) => NON_TRANSFERABLE in m.types
    case InitializePermanentDelegate(_, d) => PermanentDelegateOf(m) == Some(d) && d != 0
    case InitializeDefaultAccountState(_, frozen) =>
      DEFAULT_ACCOUNT_STATE in m.types && m.ext.defaultFrozen == frozen && (frozen ==> m.freezeAuthority.Some?)
    case InitializeTransferFeeConfig(_, c, w, basisPoints, maximumFee) =>
      && basisPoints <= ONE_IN_BASIS_POINTS && m.ext.fee.withheld == 0
      && AuthorityAt(m, AuthorityType.TransferFeeConfig) == c && AuthorityAt(m, AuthorityType.WithheldWithdraw) == w
      && forall epoch: u64, amount: u64 ::
           FeeOf(m, epoch, amount) == Charged(TransferFee(ctx.epoch, maximumFee, basisPoints), amount)
    case InitializeAuthorityExtension(_, t, a, target) =>
      && t in m.types && t in m.ext.authorities && m.ext.authorities[t] == a
      && (t == TRANSFER_HOOK ==> HookProgramOf(m) == target && target != Some(TOKEN_PROGRAM))
    case _ => true
  }

  /** An empty account holds the extension an instruction initialised for mint `m`, with its values. */
  ghost predicate HoldsSetting(d: Data, ctx: Ctx, i: Instr) {
    && d.Blank? && d.types != [] && AccountTypeOf(d.types[0]) == AccountType.Mint
    && match i
       case InitializeMintCloseAuthority(_, a) =>
         MINT_CLOSE_AUTHORITY in d.types && d.ext.closeAuthority == a && a != Some(0)
       case InitializeNonTransferableMint(_) => NON_TRANSFERABLE in d.types
       case InitializePermanentDelegate(_, p) =>
         PERMANENT_DELEGATE in d.types && d.ext.permanentDelegate == Some(p) && p != 0
       case InitializeDefaultAccountState(_, frozen) => DEFAULT_ACCOUNT_STATE in d.types
           && d.ext.defaultFrozen == frozen
       case InitializeTransferFeeConfig(_, c, w, basisPoints, maximumFee) =>
         var fee := TransferFee(ctx.epoch, maximumFee, basisPoints);
         TRANSFER_FEE_CONFIG in d.types && d.ext.fee == FeeConfig(c, w, 0, fee, fee)
             && basisPoints <= ONE_IN_BASIS_POINTS
       case InitializeAuthorityExtension(_, t, a, target) =>
         && t in d.types && t in d.ext.authorities && d.ext.authorities[t] == a
         && (t == TRANSFER_HOOK ==> d.ext.hookProgram == target && target != Some(TOKEN_PROGRAM))
       case _ => true
  }

  predicate InitializesExtension(i: Instr) {
    || i.InitializeMintCloseAuthority? || i.InitializeNonTransferableMint? || i.InitializePermanentDelegate?
    || i.InitializeDefaultAccountState? || i.InitializeTransferFeeConfig? || i.InitializeAuthorityExtension?
  }

  /** The two instructions initialise the same extension. */
  predicate SameExtension(i: Instr, j: Instr) {
    match (i, j)
    case (InitializeMintCloseAuthority(_, _), InitializeMintCloseAuthority(_, _)) => true
    case (InitializeNonTransferableMint(_), InitializeNonTransferableMint(_)) => true
    case (InitializePermanentDelegate(_, _), InitializePermanentDelegate(_, _)) => true
    case (InitializeDefaultAccountState(_, _), InitializeDefaultAccountState(_, _)) => true
    case (InitializeTransferFeeConfig(_, _, _, _, _), InitializeTransferFeeConfig(_, _, _, _, _)) => true
    case (InitializeAuthorityExtension(_, t, _, _), InitializeAuthorityExtension(_, u, _, _)) => t == u
    case _ => false
  }

  /** Instructions that turn account `k` into a mint, or initialise the same extension of it again. */
  function Overriding(k: Pubkey, i: Instr): Kind {
    j => Target(j) == Some(k) && (j.InitializeMint? || SameExtension(i, j))
  }

  /** One extension stored: the types grow, and the instruction decides the values. */
  lemma ExtensionStored(s: State, k: Pubkey, t: ExtensionType, ext: MintExt)
    requires L.InitMintExtension(s, k, t, ext).Ok? && AccountTypeOf(t) == AccountType.Mint
    ensures var i, i' := Get(s, k), Get(L.InitMintExtension(s, k, t, ext).value, k);
            && i.data.Blank? && i' == i.(data := Blank(With(i.data.types, t), ext))
            && AccountTypeOf(i'.data.types[0]) == AccountType.Mint
  {
    hide InitExtension;
    ExtensionFits(Get(s, k).dataLen, Get(s, k).data.types, t);
  }

  /** The type and the values an instruction stores. */
  function Stores(s: State, ctx: Ctx, i: Instr): (ExtensionType, MintExt)
    requires InitializesExtension(i)
  {
    var ext := L.BlankExt(s, i.mint);
    match i
    case InitializeMintCloseAuthority(_, a) => (MINT_CLOSE_AUTHORITY, ext.(closeAuthority := a))
    case InitializeNonTransferableMint(_) => (NON_TRANSFERABLE, ext)
    case InitializePermanentDelegate(_, p) => (PERMANENT_DELEGATE, ext.(permanentDelegate := Some(p)))
    case InitializeDefaultAccountState(_, frozen) => (DEFAULT_ACCOUNT_STATE, ext.(defaultFrozen := frozen))
    case InitializeTransferFeeConfig(_, c, w, basisPoints, maximumFee) =>
      var fee := TransferFee(ctx.epoch, maximumFee, basisPoints);
      (TRANSFER_FEE_CONFIG, ext.(fee := FeeConfig(c, w, 0, fee, fee)))
    case InitializeAuthorityExtension(_, t, a, target) =>
      (t, ext.(authorities := ext.authorities[t := a],
               hookProgram := if t == TRANSFER_HOOK then target else ext.hookProgram))
  }

  /** Initialising an extension adds its type, once, to those held, and sets its own values. */
  lemma StoredBy(s: State, ctx: Ctx, i: Instr)
    requires InitializesExtension(i) && Process(s, ctx, i).Ok?
    ensures var (t, ext) := Stores(s, ctx, i);
            var x, x' := Get(s, i.mint), Get(Process(s, ctx, i).value, i.mint);
            && x.data.Blank? && x' == x.(data := Blank(With(x.data.types, t), ext))
            && AccountTypeOf(x'.data.types[0]) == AccountType.Mint
  {
    hide L.InitMintExtension, L.BlankExt;
    var (t, ext) := Stores(s, ctx, i);
    ExtensionStored(s, i.mint, t, ext);
  }

  lemma SettingStored(s: State, ctx: Ctx, i: Instr)
    requires InitializesExtension(i) && Process(s, ctx, i).Ok?
    ensures HoldsSetting(Get(Process(s, ctx, i).value, i.mint).data, ctx, i)
    ensures Get(Process(s, ctx, i).value, i.mint).owner == Get(s, i.mint).owner
  {
    hide L.InitMintExtension;
    StoredBy(s, ctx, i);
  }

  /** Initialising another extension of the account leaves the setting alone. */
  lemma SettingSurvives(s: State, ctx: Ctx, i: Instr, ctx': Ctx, j: Instr, k: Pubkey)
    requires InitializesExtension(j) && j.mint == k && !SameExtension(i, j) && Process(s, ctx', j).Ok?
    requires InitializesExtension(i) && HoldsSetting(Get(s, k).data, ctx, i)
    ensures HoldsSetting(Get(Process(s, ctx', j).value, k).data, ctx, i)
    ensures Get(Process(s, ctx', j).value, k).owner == Get(s, k).owner
  {
    hide L.InitMintExtension;
    StoredBy(s, ctx', j);
  }

  /** No other instruction with a single target accepts an account that holds extensions of a mint. */
  lemma SetupRefused(s: State, ctx: Ctx, j: Instr, k: Pubkey)
    requires Target(j) == Some(k) && Process(s, ctx, j).Ok? && !j.InitializeMint? && !InitializesExtension(j)
    ensures var d := Get(s, k).data; !(d.Blank? && d.types != [] && AccountTypeOf(d.types[0]) == AccountType.Mint)
  {
    hide InitExtension, InitExtensions, TryCalculateAccountLen, RequiredInitAccountExtensions, Multisigs.ValidateOwner,
         L.SetTokenAuthority, L.SetMintAuthority, L.CheckMint;
  }

  lemma SettingStep(s: State, e: Step, k: Pubkey, ctx: Ctx, i: Instr)
    requires Get(s, k).owner == TOKEN_PROGRAM && InitializesExtension(i) && HoldsSetting(Get(s, k).data, ctx, i)
    requires !Happens(s, e, Overriding(k, i))
    ensures Get(Next(s, e), k).owner == TOKEN_PROGRAM && HoldsSetting(Get(Next(s, e), k).data, ctx, i)
  {
    hide Process, RuntimeAccepts, AccountTypeOf;
    match e
    case Call(ctx', j) =>
      if Commits(s, ctx', j) {
        if Target(j) != Some(k) {
          PassiveStep(s, ctx', j, k);
        } else if InitializesExtension(j) {
          SettingSurvives(s, ctx, i, ctx', j, k);
        } else {
          SetupRefused(s, ctx', j, k);
        }
      }
    case Outside(_, _) =>
  }

  lemma {:induction false} SettingAlong(s: State, es: seq<Step>, k: Pubkey, ctx: Ctx, i: Instr)
    requires Get(s, k).owner == TOKEN_PROGRAM && InitializesExtension(i) && HoldsSetting(Get(s, k).data, ctx, i)
    requires NeverHappens(s, es, Overriding(k, i))
    ensures Get(Run(s, es), k).owner == TOKEN_PROGRAM && HoldsSetting(Get(Run(s, es), k).data, ctx, i)
  {
    hide Next, HoldsSetting, Happens;
    if es != [] {
      SettingAlong(s, es[..|es| - 1], k, ctx, i);
      SettingStep(Run(s, es[..|es| - 1]), es[|es| - 1], k, ctx, i);
    }
  }

  /** A mint takes over what its account holds. */
  lemma MintTakesOver(s: State, ctx: Ctx, j: Instr)
    requires j.InitializeMint? && Process(s, ctx, j).Ok?
    ensures var d := Get(s, j.mint).data;
            && d.Blank?
            && (DEFAULT_ACCOUNT_STATE in d.types && d.ext.defaultFrozen ==> j.freezeAuthority.Some?)
            && Get(Process(s, ctx, j).value, j.mint).data ==
               MintData(Mint.Mint(Some(j.mintAuthority), 0, j.decimals, j.freezeAuthority, d.types, d.ext))
  {
    hide TryCalculateAccountLen, ValidMintCombination;
  }

  lemma SettingBecomesMint(s: State, ctx: Ctx, i: Instr, ctx': Ctx, j: Instr)
    requires InitializesExtension(i) && j.InitializeMint? && Process(s, ctx', j).Ok?
    requires HoldsSetting(Get(s, j.mint).data, ctx, i)
    ensures var d := Get(Process(s, ctx', j).value, j.mint).data;
            && d.MintData? && CarriesSetting(d.mint, ctx, i)
            && d.mint.supply == 0 && d.mint.authority == Some(j.mintAuthority)
            && d.mint.freezeAuthority == j.freezeAuthority
  {
    hide CalculateFee, Process;
    MintTakesOver(s, ctx', j);
  }

  /**
   Initialising an extension and, any run later, the mint: as long as nothing in between makes the account a mint or
   initialises the same extension again, the mint carries the extension with the values given. It has no supply and
   exactly the authorities named. Other extensions may be initialised in between, and everything else may happen.
   */
  lemma MintCarriesSettings(s: State, e: Step, es: seq<Step>, e': Step)
    requires e.Call? && InitializesExtension(e.instr) && Commits(s, e.ctx, e.instr)
    requires Get(s, e.instr.mint).owner == TOKEN_PROGRAM
    requires NeverHappens(Next(s, e), es, Overriding(e.instr.mint, e.instr))
    requires e'.Call? && e'.instr.InitializeMint? && e'.instr.mint == e.instr.mint
    requires Commits(Run(Next(s, e), es), e'.ctx, e'.instr)
    ensures var d := Get(Next(Run(Next(s, e), es), e'), e.instr.mint).data;
            && d.MintData? && CarriesSetting(d.mint, e.ctx, e.instr)
            && d.mint.supply == 0 && d.mint.authority == Some(e'.instr.mintAuthority)
            && d.mint.freezeAuthority == e'.instr.freezeAuthority
  {
    hide Process, Run, NeverHappens, HoldsSetting, CarriesSetting, RuntimeAccepts;
    SettingStored(s, e.ctx, e.instr);
    SettingAlong(Next(s, e), es, e.instr.mint, e.ctx, e.instr);
    SettingBecomesMint(Run(Next(s, e), es), e.ctx, e.instr, e'.ctx, e'.instr);
  }

  // ------------------------------------------------------------------ immutable owners

  /** An empty account whose owner will be immutable. */
  predicate OwnerWillStay(i: Info) {
    && i.owner == TOKEN_PROGRAM && i.data.Blank? && IMMUTABLE_OWNER in i.data.types
    && AccountTypeOf(i.data.types[0]) == Account
  }

  function Initializing(k: Pubkey): Kind {
    (j: Instr) => j.InitializeAccount? && j.account == k
  }

  lemma ImmutableStored(s: State, ctx: Ctx, i: Instr)
    requires i.InitializeImmutableOwner? && Process(s, ctx, i).Ok? && Get(s, i.account).owner == TOKEN_PROGRAM
    ensures OwnerWillStay(Get(Process(s, ctx, i).value, i.account))
  {
    hide InitExtension;
  }

  lemma ImmutableTarget(s: State, ctx: Ctx, j: Instr, k: Pubkey)
    requires Target(j) == Some(k) && Process(s, ctx, j).Ok? && !j.InitializeAccount? && OwnerWillStay(Get(s, k))
    ensures OwnerWillStay(Get(Process(s, ctx, j).value, k))
  {
    hide InitExtension, InitExtensions, TryCalculateAccountLen, ValidMintCombination, Multisigs.ValidateOwner,
         L.SetTokenAuthority, L.SetMintAuthority, L.CheckMint;
  }

  lemma {:induction false} ImmutableAlong(s: State, es: seq<Step>, k: Pubkey)
    requires OwnerWillStay(Get(s, k)) && NeverHappens(s, es, Initializing(k))
    ensures OwnerWillStay(Get(Run(s, es), k))
  {
    hide Process, RuntimeAccepts, AccountTypeOf;
    if es != [] {
      var n := |es| - 1;
      ImmutableAlong(s, es[..n], k);
      var t := Run(s, es[..n]);
      match es[n]
      case Call(ctx, j) =>
        if Commits(t, ctx, j) {
          if Target(j) == Some(k) { ImmutableTarget(t, ctx, j, k); } else { PassiveStep(t, ctx, j, k); }
        }
      case Outside(_, _) =>
    }
  }

  lemma ImmutableTakenOver(s: State, ctx: Ctx, j: Instr)
    requires j.InitializeAccount? && Process(s, ctx, j).Ok? && OwnerWillStay(Get(s, j.account))
    ensures IsToken(Process(s, ctx, j).value, j.account)
    ensures var a := TokenAt(Process(s, ctx, j).value, j.account); a.owner == j.owner && IMMUTABLE_OWNER in a.types
  {
    hide TryCalculateAccountLen, RequiredInitAccountExtensions, InitExtensions, InitExtension;
  }

  /** The owner of an account that carries the extension never changes. */
  lemma {:induction false} ImmutableOwnerStays(s: State, es: seq<Step>, k: Pubkey)
    requires Good(s) && IsToken(s, k) && IMMUTABLE_OWNER in TokenAt(s, k).types && NeverHappens(s, es, Closing(k))
    ensures IsToken(Run(s, es), k) && IMMUTABLE_OWNER in TokenAt(Run(s, es), k).types
    ensures TokenAt(Run(s, es), k).owner == TokenAt(s, k).owner
  {
    hide Next, Good, Commits;
    if es != [] {
      var n := |es| - 1;
      ImmutableOwnerStays(s, es[..n], k);
      GoodAlong(s, es[..n]);
      TokenNext(Run(s, es[..n]), es[n], k);
    }
  }

  /**
   Making the owner immutable and, any run later, initialising the account: from then on, over any run that does not
   close the account, its owner is the one named at initialisation.
   */
  lemma ImmutableOwnerIsCarried(s: State, e: Step, es: seq<Step>, e': Step, es': seq<Step>)
    requires Good(s) && e.Call? && e.instr.InitializeImmutableOwner? && Commits(s, e.ctx, e.instr)
    requires Get(s, e.instr.account).owner == TOKEN_PROGRAM
    requires NeverHappens(Next(s, e), es, Initializing(e.instr.account))
    requires e'.Call? && e'.instr.InitializeAccount? && e'.instr.account == e.instr.account
    requires Commits(Run(Next(s, e), es), e'.ctx, e'.instr)
    requires NeverHappens(Next(Run(Next(s, e), es), e'), es', Closing(e.instr.account))
    ensures var t := Run(Next(Run(Next(s, e), es), e'), es');
            IsToken(t, e.instr.account) && TokenAt(t, e.instr.account).owner == e'.instr.owner
  {
    hide Process, Run, NeverHappens, OwnerWillStay, RuntimeAccepts, Good;
    ImmutableStored(s, e.ctx, e.instr);
    ImmutableAlong(Next(s, e), es, e.instr.account);
    ImmutableTakenOver(Run(Next(s, e), es), e'.ctx, e'.instr);
    GoodNext(s, e);
    GoodAlong(Next(s, e), es);
    GoodNext(Run(Next(s, e), es), e');
    ImmutableOwnerStays(Next(Run(Next(s, e), es), e'), es', e.instr.account);
  }

  // ------------------------------------------------------------------ default states

  function UpdatingOrClosing(m: Pubkey): Kind {
    j => Closes(j, m) || (j.UpdateDefaultAccountState? && j.mint == m)
  }

  ghost predicate DefaultIs(s: State, m: Pubkey, frozen: bool) {
    IsMint(s, m) && DEFAULT_ACCOUNT_STATE in MintAt(s, m).types && MintAt(s, m).ext.defaultFrozen == frozen
  }

  lemma DefaultUpdated(s: State, ctx: Ctx, i: Instr)
    requires i.UpdateDefaultAccountState? && IsMint(s, i.mint) && Process(s, ctx, i).Ok?
    ensures DefaultIs(Process(s, ctx, i).value, i.mint, i.frozen)
  {
    hide Multisigs.ValidateOwner;
  }

  lemma {:induction false} DefaultAlong(s: State, es: seq<Step>, m: Pubkey, frozen: bool)
    requires DefaultIs(s, m, frozen) && NeverHappens(s, es, UpdatingOrClosing(m))
    ensures DefaultIs(Run(s, es), m, frozen)
  {
    hide Next, Commits, KeepsAuthorities;
    if es != [] {
      DefaultAlong(s, es[..|es| - 1], m, frozen);
      MintNext(Run(s, es[..|es| - 1]), es[|es| - 1], m);
    }
  }

  lemma DefaultApplies(s: State, ctx: Ctx, j: Instr, frozen: bool)
    requires j.InitializeAccount? && Process(s, ctx, j).Ok? && DefaultIs(s, j.mint, frozen)
    ensures var d := Get(Process(s, ctx, j).value, j.account).data; d.TokenData? && d.token.frozen == frozen
  {
    hide TryCalculateAccountLen, RequiredInitAccountExtensions, InitExtensions;
  }

  /**
   A new account starts in the default state last set: any run after an update, as long as the mint is neither updated
   again nor closed.
   */
  lemma DefaultStateApplies(s: State, e: Step, es: seq<Step>, e': Step)
    requires e.Call? && e.instr.UpdateDefaultAccountState? && Commits(s, e.ctx, e.instr) && IsMint(s, e.instr.mint)
    requires NeverHappens(Next(s, e), es, UpdatingOrClosing(e.instr.mint))
    requires e'.Call? && e'.instr.InitializeAccount? && e'.instr.mint == e.instr.mint
    requires Commits(Run(Next(s, e), es), e'.ctx, e'.instr)
    ensures var d := Get(Next(Run(Next(s, e), es), e'), e'.instr.account).data;
            d.TokenData? && d.token.frozen == e.instr.frozen
  {
    hide Process, Run, NeverHappens, DefaultIs, RuntimeAccepts;
    DefaultUpdated(s, e.ctx, e.instr);
    DefaultAlong(Next(s, e), es, e.instr.mint, e.instr.frozen);
    DefaultApplies(Run(Next(s, e), es), e'.ctx, e'.instr, e.instr.frozen);
  }

  // ------------------------------------------------------------------ lengths

  /**
   Over every run: a mint has exactly the length calculated for its extensions, which may be combined; a token account
   has room for its extensions; and a multisig has its thresholds in range.
   */
  lemma AccountsFit(s: State, es: seq<Step>, k: Pubkey)
    requires Genesis(s)
    ensures var t := Run(s, es);
            && (IsMint(t, k) ==>
                  && TryCalculateAccountLen(MintBase, MintAt(t, k).types) == Ok(Get(t, k).dataLen)
                  && ValidMintCombination(MintAt(t, k).types))
            && (IsToken(t, k) ==>
                  && ACCOUNT_LEN <= Get(t, k).dataLen != MULTISIG_LEN
                  && Room(TokenAt(t, k).types, Get(t, k).dataLen))
            && (Get(t, k).owner == TOKEN_PROGRAM && Get(t, k).data.MultisigData? ==>
                  var x := Get(t, k).data.multisig;
                  Get(t, k).dataLen == MULTISIG_LEN && 1 <= x.m <= MAX_SIGNERS
                      && 1 <= x.n <= |x.signers| == MAX_SIGNERS)
  {
    hide Run, Genesis, Good, TryCalculateAccountLen, ValidMintCombination, Room;
    InvAlong(s, es);
    GoodAt(Run(s, es), k);
  }
}
