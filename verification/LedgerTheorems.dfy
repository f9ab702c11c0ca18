/** What whole runs guarantee: allowances, guards, frozen accounts, fixed supplies and non-transferable tokens. */
module LedgerTheorems {
  import opened Bytes
  import opened Common
  import opened ExtensionTypes
  import opened LedgerState
  import opened LedgerSums
  import opened LedgerRuns
  import opened LedgerGood
  import opened LedgerBalance
  import opened LedgerTokens
  import Multisigs
  import L = Ledger

  // ------------------------------------------------------------------ steps of a run

  type Kind = Instr -> bool

  /** An instruction of the given kind takes effect. */
  predicate Happens(s: State, e: Step, p: Kind) {
    e.Call? && p(e.instr) && Commits(s, e.ctx, e.instr)
  }

  predicate NeverHappens(s: State, es: seq<Step>, p: Kind) {
    es == [] || (NeverHappens(s, es[..|es| - 1], p) && !Happens(Run(s, es[..|es| - 1]), es[|es| - 1], p))
  }

  function Closing(k: Pubkey): Kind {
    i => Closes(i, k)
  }

  function ClosingOrToggling(k: Pubkey): Kind {
    i => Closes(i, k) || (i.ToggleFreeze? && i.account == k)
  }

  function ClosingOrUnlocking(k: Pubkey): Kind {
    i => Closes(i, k) || (i.ToggleCpiGuard? && i.account == k && !i.enable)
  }

  function ApprovingOrClosing(k: Pubkey): Kind {
    i => Closes(i, k) || (i.Approve? && i.account == k)
  }

  function Resetting(k: Pubkey): Kind {
    i => ResetsAllowance(i, k)
  }

  lemma {:induction false} GoodAlong(s: State, es: seq<Step>)
    requires Good(s)
    ensures Good(Run(s, es))
  {
    hide Good, Next;
    if es != [] {
      GoodAlong(s, es[..|es| - 1]);
      GoodNext(Run(s, es[..|es| - 1]), es[|es| - 1]);
    }
  }

  /** One step seen from a token account: closed, changed by an instruction, or unchanged. */
  lemma TokenNext(s: State, e: Step, k: Pubkey)
    requires Good(s) && IsToken(s, k)
    ensures var s' := Next(s, e);
            if Happens(s, e, Closing(k)) then Get(s', k) == ABSENT
            else
              && IsToken(s', k)
              && (if e.Call? && Commits(s, e.ctx, e.instr) then Evolves(s, e.ctx, e.instr, k, TokenAt(s', k))
                  else TokenAt(s', k) == TokenAt(s, k))
  {
    hide Process, Good, Evolves, RuntimeAccepts;
    match e
    case Call(ctx, i) => if Commits(s, ctx, i) { TokenStep(s, ctx, i, k); }
    case Outside(_, _) =>
  }

  lemma MintNext(s: State, e: Step, m: Pubkey)
    requires IsMint(s, m)
    ensures var s' := Next(s, e);
            if Happens(s, e, Closing(m)) then Get(s', m) == ABSENT && MintAt(s, m).supply == 0
            else
              && IsMint(s', m)
              && (if e.Call? && Commits(s, e.ctx, e.instr) then MintEvolves(e.instr, m, MintAt(s, m), MintAt(s', m))
                  else MintAt(s', m) == MintAt(s, m))
  {
    hide Process, MintEvolves, RuntimeAccepts;
    match e
    case Call(ctx, i) => if Commits(s, ctx, i) { MintStep(s, ctx, i, m); }
    case Outside(_, _) =>
  }

  // ------------------------------------------------------------------ the delegate's budget

  /** What the balance of `k` loses by a step that debits it on the word of its delegate, and by such steps of a run. */
  function SpentIn(s: State, e: Step, k: Pubkey): int {
    if IsToken(s, k) && IsToken(Next(s, e), k) && e.Call? && Commits(s, e.ctx, e.instr)
        && ByDelegate(s, e.ctx, e.instr, k)
    then TokenAt(s, k).amount - TokenAt(Next(s, e), k).amount else 0
  }

  function TotalSpent(s: State, es: seq<Step>, k: Pubkey): int {
    if es == [] then 0
    else TotalSpent(s, es[..|es| - 1], k) + SpentIn(Run(s, es[..|es| - 1]), es[|es| - 1], k)
  }

  /** The account has this delegate as long as something is left to spend, and none afterwards. */
  predicate DelegateMatches(a: Token, delegate: Option<Pubkey>) {
    a.delegate == if a.delegatedAmount == 0 then None else delegate
  }

  lemma SpendStep(s: State, e: Step, k: Pubkey)
    requires Good(s) && IsToken(s, k) && !Happens(s, e, Resetting(k))
    ensures IsToken(Next(s, e), k)
    ensures TokenAt(Next(s, e), k).delegatedAmount == TokenAt(s, k).delegatedAmount - SpentIn(s, e, k)
    ensures SpentIn(s, e, k) >= 0
    ensures DelegateMatches(TokenAt(s, k), TokenAt(s, k).delegate)
            ==> DelegateMatches(TokenAt(Next(s, e), k), TokenAt(s, k).delegate)
  {
    hide Next, Commits, Good;
    TokenNext(s, e, k);
  }

  lemma {:induction false} AllowanceAlong(s: State, es: seq<Step>, k: Pubkey)
    requires Good(s) && IsToken(s, k) && NeverHappens(s, es, Resetting(k))
    ensures IsToken(Run(s, es), k)
    ensures TotalSpent(s, es, k) == TokenAt(s, k).delegatedAmount - TokenAt(Run(s, es), k).delegatedAmount
    ensures DelegateMatches(TokenAt(s, k), TokenAt(s, k).delegate)
            ==> DelegateMatches(TokenAt(Run(s, es), k), TokenAt(s, k).delegate)
  {
    hide Next, Good, SpentIn, Happens;
    if es != [] {
      var n := |es| - 1;
      AllowanceAlong(s, es[..n], k);
      GoodAlong(s, es[..n]);
      SpendStep(Run(s, es[..n]), es[n], k);
    }
  }

  /**
   The delegate's budget: from an approval of `A` on, for as long as no other approval, revocation, change of owner
   or close takes effect, what the balance lost on the delegate's word is exactly `A` minus the allowance left; and
   the account loses its delegate exactly when all of a positive `A` is spent.
   */
  lemma DelegateBudget(s: State, e: Step, es: seq<Step>, k: Pubkey)
    requires Good(s) && IsToken(s, k)
    requires e.Call? && e.instr.Approve? && e.instr.account == k && Commits(s, e.ctx, e.instr)
    requires NeverHappens(Next(s, e), es, Resetting(k))
    ensures var s1 := Next(s, e);
            && IsToken(s1, k) && TokenAt(s1, k).delegate == Some(e.instr.delegate)
            && IsToken(Run(s1, es), k)
            && TotalSpent(s1, es, k) == e.instr.amount - TokenAt(Run(s1, es), k).delegatedAmount
            && (e.instr.amount > 0 ==>
                  TokenAt(Run(s1, es), k).delegate ==
                    if TotalSpent(s1, es, k) == e.instr.amount then None else Some(e.instr.delegate))
  {
    hide Next, Good, Commits, NeverHappens, TotalSpent, Run;
    TokenNext(s, e, k);
    GoodNext(s, e);
    AllowanceAlong(Next(s, e), es, k);
  }

  /** After a revocation nothing leaves the account on a delegate's word, until the next approval. */
  lemma {:induction false} RevokedStays(s: State, es: seq<Step>, k: Pubkey)
    requires Good(s) && IsToken(s, k) && TokenAt(s, k).delegate.None? && NeverHappens(s, es, ApprovingOrClosing(k))
    ensures IsToken(Run(s, es), k) && TokenAt(Run(s, es), k).delegate.None? && TotalSpent(s, es, k) == 0
  {
    hide Next, Good, Commits;
    if es != [] {
      var n := |es| - 1;
      RevokedStays(s, es[..n], k);
      GoodAlong(s, es[..n]);
      TokenNext(Run(s, es[..n]), es[n], k);
    }
  }

  /** A transfer of an account to itself charges no allowance and moves nothing. */
  lemma SelfTransferIsFree(s: State, ctx: Ctx, i: Instr)
    requires i.Transfer? && i.account == i.dest && Process(s, ctx, i).Ok?
    ensures Process(s, ctx, i).value == s && IsToken(s, i.account) && Spent(s, ctx, i, i.account) == 0
  {
    hide Multisigs.ValidateOwner, L.TransferTerms;
  }

  // ------------------------------------------------------------------ the CPI guard

  /** While the guard stays on, the owner never changes. */
  lemma {:induction false} LockedOwnerFixed(s: State, es: seq<Step>, k: Pubkey)
    requires Good(s) && IsToken(s, k) && Locked(TokenAt(s, k)) && NeverHappens(s, es, ClosingOrUnlocking(k))
    ensures IsToken(Run(s, es), k) && Locked(TokenAt(Run(s, es), k))
    ensures TokenAt(Run(s, es), k).owner == TokenAt(s, k).owner
  {
    hide Next, Good, Commits;
    if es != [] {
      var n := |es| - 1;
      LockedOwnerFixed(s, es[..n], k);
      GoodAlong(s, es[..n]);
      TokenNext(Run(s, es[..n]), es[n], k);
    }
  }

  predicate AllInCpi(es: seq<Step>) {
    forall j :: 0 <= j < |es| && es[j].Call? ==> es[j].ctx.inCpi
  }

  /** No permanent delegate can act on the account: its mint is still there and has none, or none any more. */
  predicate NoPermanentDelegate(s: State, m: Pubkey) {
    IsMint(s, m) && PermanentDelegateOf(MintAt(s, m)).None?
  }

  /**
   What a run made up of calls from inside other programs can do to a locked account that it does not close: the
   guard stays on, owner and mint stay the same, no delegate and no close authority appears, and the balance falls
   by no more than the allowance that was already granted, unless the mint has a permanent delegate or the account
   belongs to the system program or the incinerator.
   */
  lemma {:induction false} GuardedAlong(s: State, es: seq<Step>, k: Pubkey)
    requires Good(s) && IsToken(s, k) && Locked(TokenAt(s, k)) && AllInCpi(es) && NeverHappens(s, es, Closing(k))
    ensures IsToken(Run(s, es), k)
    ensures var a, b := TokenAt(s, k), TokenAt(Run(s, es), k);
            && Locked(b) && b.owner == a.owner && b.mint == a.mint
            && (b.delegate == a.delegate || b.delegate == None)
            && (b.closeAuthority == a.closeAuthority || b.closeAuthority == None)
            && (NoPermanentDelegate(s, a.mint) && NeverHappens(s, es, Closing(a.mint))
                && !a.OwnedBySystemOrIncinerator() ==>
                  b.amount - b.delegatedAmount >= a.amount - a.delegatedAmount)
  {
    hide Next, Good, Commits, Evolves;
    if es != [] {
      var n := |es| - 1;
      GuardedAlong(s, es[..n], k);
      GoodAlong(s, es[..n]);
      var t := Run(s, es[..n]);
      GuardedStep(t, es[n], k);
      if NoPermanentDelegate(s, TokenAt(s, k).mint) && NeverHappens(s, es, Closing(TokenAt(s, k).mint)) {
        NoPermanentDelegateAlong(s, es[..n], TokenAt(s, k).mint);
      }
    }
  }

  lemma GuardedStep(s: State, e: Step, k: Pubkey)
    requires Good(s) && IsToken(s, k) && Locked(TokenAt(s, k)) && (e.Call? ==> e.ctx.inCpi)
        && !Happens(s, e, Closing(k))
    ensures IsToken(Next(s, e), k)
    ensures var a, b := TokenAt(s, k), TokenAt(Next(s, e), k);
            && Locked(b) && b.owner == a.owner && b.mint == a.mint
            && (b.delegate == a.delegate || b.delegate == None)
            && (b.closeAuthority == a.closeAuthority || b.closeAuthority == None)
            && (NoPermanentDelegate(s, a.mint) && !a.OwnedBySystemOrIncinerator() ==>
                  b.amount - b.delegatedAmount >= a.amount - a.delegatedAmount)
  {
    hide Next, Good, RuntimeAccepts, Process, Terms;
    TokenNext(s, e, k);
    if e.Call? && Commits(s, e.ctx, e.instr) {
      if ResetsAllowance(e.instr, k) {
        ResetUnderGuard(s, e.ctx, e.instr, k);
        RevokeEffect(s, e, k);
      } else {
        if NoPermanentDelegate(s, TokenAt(s, k).mint) { NoPermanentDebit(s, e.instr, k); }
      }
    }
  }

  lemma NoPermanentDebit(s: State, i: Instr, k: Pubkey)
    requires IsToken(s, k) && NoPermanentDelegate(s, TokenAt(s, k).mint)
    ensures !ByPermanentDelegate(s, i, k)
  {
  }

  lemma RevokeEffect(s: State, e: Step, k: Pubkey)
    requires e.Call? && Commits(s, e.ctx, e.instr)
    ensures Next(s, e) == Process(s, e.ctx, e.instr).value
  {
  }

  /** Inside other programs a locked account's allowance can only be dropped, not granted. */
  lemma ResetUnderGuard(s: State, ctx: Ctx, i: Instr, k: Pubkey)
    requires IsToken(s, k) && Locked(TokenAt(s, k)) && ctx.inCpi && ResetsAllowance(i, k) && Process(s, ctx, i).Ok?
    ensures i.Revoke? || Closes(i, k)
    ensures i.Revoke? ==>
        Get(Process(s, ctx, i).value, k).data == TokenData(TokenAt(s, k).(delegate := None, delegatedAmount := 0))
  {
    hide Multisigs.ValidateOwner, L.CheckMint, L.SetMintAuthority;
  }

  lemma NoPermanentDelegateAlong(s: State, es: seq<Step>, m: Pubkey)
    requires NoPermanentDelegate(s, m) && NeverHappens(s, es, Closing(m))
    ensures NoPermanentDelegate(Run(s, es), m)
  {
    RemovedAuthorityStays(s, es, m, AuthorityType.PermanentDelegate);
  }

  /** The guard itself is never toggled from inside another program. */
  lemma NoToggleInCpi(s: State, ctx: Ctx, i: Instr)
    requires i.ToggleCpiGuard? && ctx.inCpi
    ensures Process(s, ctx, i).Err?
  {
    hide Multisigs.ValidateOwner;
  }

  /** Closing a locked account from inside another program pays its owner and nobody else. */
  lemma CpiClosePaysOwner(s: State, ctx: Ctx, i: Instr)
    requires i.CloseAccount? && ctx.inCpi && Process(s, ctx, i).Ok? && IsToken(s, i.account)
    requires Locked(TokenAt(s, i.account)) && !TokenAt(s, i.account).OwnedBySystemOrIncinerator()
    ensures i.dest == TokenAt(s, i.account).owner
    ensures Get(Process(s, ctx, i).value, i.dest).lamports == Get(s, i.dest).lamports + Get(s, i.account).lamports
    ensures forall k :: k != i.dest && k != i.account ==> Get(Process(s, ctx, i).value, k) == Get(s, k)
  {
    hide Process, L.CheckCloseToken;
    CloseParts(s, ctx, i);
    CheckCloseTokenMeans(s, ctx, TokenAt(s, i.account), i.dest, i.authority, i.signers);
  }

  function ChangingOwner(k: Pubkey): Kind {
    (i: Instr) => i.SetAuthority? && i.account == k && i.kind.AccountOwner?
  }

  /**
   The owner changes only by a change of authority, which installs the owner it names; whoever becomes the owner starts
   without a delegate, and on a native account without a close authority. Nothing else changes.
   */
  lemma NewOwnerStartsClean(s: State, e: Step, k: Pubkey)
    requires Good(s) && IsToken(s, k) && !Happens(s, e, Closing(k))
    ensures IsToken(Next(s, e), k)
    ensures TokenAt(Next(s, e), k).owner != TokenAt(s, k).owner ==> Happens(s, e, ChangingOwner(k))
    ensures Happens(s, e, ChangingOwner(k)) ==>
              var a := TokenAt(s, k);
              && e.instr.newAuthority.Some?
              && TokenAt(Next(s, e), k) ==
                 a.(owner := e.instr.newAuthority.value, delegate := None, delegatedAmount := 0,
                    closeAuthority := if a.native.Some? then None else a.closeAuthority)
  {
    hide Next, Good, Commits;
    TokenNext(s, e, k);
  }

  // ------------------------------------------------------------------ frozen accounts

  /** While nobody thaws or closes it, a frozen account keeps its amount, owner, delegation and close authority. */
  lemma {:induction false} FrozenIsolated(s: State, es: seq<Step>, k: Pubkey)
    requires Good(s) && IsToken(s, k) && TokenAt(s, k).frozen && NeverHappens(s, es, ClosingOrToggling(k))
    ensures IsToken(Run(s, es), k)
    ensures var a, b := TokenAt(s, k), TokenAt(Run(s, es), k);
            && b.frozen && b.amount == a.amount && b.owner == a.owner && b.delegate == a.delegate
            && b.delegatedAmount == a.delegatedAmount && b.closeAuthority == a.closeAuthority && b.mint == a.mint
  {
    hide Next, Good, Commits;
    if es != [] {
      var n := |es| - 1;
      FrozenIsolated(s, es[..n], k);
      GoodAlong(s, es[..n]);
      TokenNext(Run(s, es[..n]), es[n], k);
    }
  }

  /**
   A frozen account leaves that state exactly when it is toggled or closed: thawed by its mint's freeze authority, and
   then as it was but for the flag, or closed empty.
   */
  lemma LeavingFrozen(s: State, e: Step, k: Pubkey)
    requires Good(s) && IsToken(s, k) && TokenAt(s, k).frozen
    ensures !(IsToken(Next(s, e), k) && TokenAt(Next(s, e), k).frozen) <==> Happens(s, e, ClosingOrToggling(k))
    ensures Happens(s, e, ClosingOrToggling(k)) ==>
              var a := TokenAt(s, k);
              if e.instr.ToggleFreeze? then
                && IsToken(Next(s, e), k) && TokenAt(Next(s, e), k) == a.(frozen := false)
                && Thawable(s, a.mint, e.instr.authority, e.instr.signers)
              else Closes(e.instr, k) && a.amount == 0 && Get(Next(s, e), k) == ABSENT
  {
    hide Next, Good, Process, RuntimeAccepts;
    TokenNext(s, e, k);
    GoodAt(s, k);
    if Happens(s, e, Closing(k)) {
      FrozenClosedEmpty(s, e, k);
    } else if Happens(s, e, ClosingOrToggling(k)) {
      FrozenToggledThaws(s, e, k);
    }
  }

  lemma FrozenClosedEmpty(s: State, e: Step, k: Pubkey)
    requires IsToken(s, k) && TokenAt(s, k).native.None? && Happens(s, e, Closing(k))
    ensures TokenAt(s, k).amount == 0 && Get(Next(s, e), k) == ABSENT
  {
    hide Process, RuntimeAccepts, L.CheckCloseToken, L.CheckCloseMint;
    CloseParts(s, e.ctx, e.instr);
    CheckCloseTokenMeans(s, e.ctx, TokenAt(s, k), e.instr.dest, e.instr.authority, e.instr.signers);
  }

  lemma FrozenToggledThaws(s: State, e: Step, k: Pubkey)
    requires IsToken(s, k) && TokenAt(s, k).frozen && e.Call? && e.instr.ToggleFreeze? && e.instr.account == k
    requires Commits(s, e.ctx, e.instr)
    ensures !e.instr.freeze
  {
    hide Multisigs.ValidateOwner, RuntimeAccepts;
  }

  // ------------------------------------------------------------------ one-way ratchets

  /** An authority of any kind that a mint does not have, it never gets again, in runs that do not close it. */
  lemma {:induction false} RemovedAuthorityStays(s: State, es: seq<Step>, m: Pubkey, kind: AuthorityType)
    requires IsMint(s, m) && AuthorityAt(MintAt(s, m), kind).None? && NeverHappens(s, es, Closing(m))
    ensures IsMint(Run(s, es), m) && AuthorityAt(MintAt(Run(s, es), m), kind).None?
  {
    hide Next, Commits, AuthorityAt;
    if es != [] {
      RemovedAuthorityStays(s, es[..|es| - 1], m, kind);
      MintNext(Run(s, es[..|es| - 1]), es[|es| - 1], m);
    }
  }

  /** Once a mint has no mint authority, its supply never rises, in runs that do not close it. */
  lemma {:induction false} FixedSupplyStays(s: State, es: seq<Step>, m: Pubkey)
    requires IsMint(s, m) && MintAt(s, m).authority.None? && NeverHappens(s, es, Closing(m))
    ensures IsMint(Run(s, es), m) && MintAt(Run(s, es), m).authority.None?
    ensures MintAt(Run(s, es), m).supply <= MintAt(s, m).supply
  {
    hide Next, Commits, KeepsAuthorities;
    RemovedAuthorityStays(s, es, m, AuthorityType.MintTokens);
    if es != [] {
      FixedSupplyStays(s, es[..|es| - 1], m);
      MintNext(Run(s, es[..|es| - 1]), es[|es| - 1], m);
    }
  }

  /** Once a mint cannot freeze, it never can again, in runs that do not close it. */
  lemma NoFreezeStays(s: State, es: seq<Step>, m: Pubkey)
    requires IsMint(s, m) && MintAt(s, m).freezeAuthority.None? && NeverHappens(s, es, Closing(m))
    ensures IsMint(Run(s, es), m) && MintAt(Run(s, es), m).freezeAuthority.None?
  {
    RemovedAuthorityStays(s, es, m, AuthorityType.FreezeAccountAuthority);
  }

  /** Then no account of the mint switches between frozen and initialised. */
  lemma {:induction false} FrozenFlagFixed(s: State, es: seq<Step>, m: Pubkey, k: Pubkey)
    requires Good(s) && IsMint(s, m) && MintAt(s, m).freezeAuthority.None? && NeverHappens(s, es, Closing(m))
    requires IsToken(s, k) && TokenAt(s, k).mint == m && NeverHappens(s, es, Closing(k))
    ensures IsToken(Run(s, es), k) && TokenAt(Run(s, es), k).mint == m
    ensures TokenAt(Run(s, es), k).frozen == TokenAt(s, k).frozen
  {
    hide Next, Good, Commits;
    if es != [] {
      var n := |es| - 1;
      FrozenFlagFixed(s, es[..n], m, k);
      NoFreezeStays(s, es[..n], m);
      GoodAlong(s, es[..n]);
      TokenNext(Run(s, es[..n]), es[n], k);
    }
  }

  // ------------------------------------------------------------------ newcomers

  /** Only the initialisation of an account makes a token account. */
  lemma NewToken(s: State, ctx: Ctx, i: Instr, k: Pubkey)
    requires Process(s, ctx, i).Ok? && !IsToken(s, k) && IsToken(Process(s, ctx, i).value, k)
    ensures i.InitializeAccount? && i.account == k && IsMint(s, i.mint)
    ensures var b := TokenAt(Process(s, ctx, i).value, k);
            b.mint == i.mint && forall t :: t in RequiredInitAccountExtensions(MintAt(s, i.mint).types) ==> t in b.types
  {
    hide Process;
    if Target(i).Some? {
      SingleTarget(s, ctx, i);
      NewTokenTarget(s, ctx, i);
    } else if i.HarvestWithheldToMint? || i.WithdrawWithheldFromAccounts? || i.WithdrawWithheldFromMint? {
      NoNewTokenFees(s, ctx, i, k);
    } else if i.Reallocate? || i.CreateNativeMint? || i.WithdrawExcessLamports? {
      NoNewTokenLamports(s, ctx, i, k);
    } else {
      NoNewTokenMoves(s, ctx, i, k);
    }
  }

  lemma NewTokenTarget(s: State, ctx: Ctx, i: Instr)
    requires Target(i).Some? && Process(s, ctx, i).Ok?
    ensures var k := Target(i).value;
            IsToken(Process(s, ctx, i).value, k) && !IsToken(s, k) ==>
              && i.InitializeAccount? && IsMint(s, i.mint)
              && var b := TokenAt(Process(s, ctx, i).value, k);
                 b.mint == i.mint && forall t :: t in RequiredInitAccountExtensions(MintAt(s, i.mint).types) ==>
                     t in b.types
  {
    hide Process, RequiredInitAccountExtensions;
    if i.InitializeAccount? {
      NewTokenInitialized(s, ctx, i);
    } else if Initializes(i) {
      NewTokenSetup(s, ctx, i);
    } else {
      NewTokenEdit(s, ctx, i);
    }
  }

  lemma NewTokenInitialized(s: State, ctx: Ctx, i: Instr)
    requires i.InitializeAccount? && Process(s, ctx, i).Ok?
    ensures IsMint(s, i.mint) && Get(Process(s, ctx, i).value, i.account).data.TokenData?
    ensures var b := Get(Process(s, ctx, i).value, i.account).data.token;
            b.mint == i.mint && forall t :: t in RequiredInitAccountExtensions(MintAt(s, i.mint).types) ==> t in b.types
  {
    hide TryCalculateAccountLen, RequiredInitAccountExtensions, InitExtensions;
  }

  lemma NewTokenSetup(s: State, ctx: Ctx, i: Instr)
    requires Initializes(i) && !i.InitializeAccount? && Process(s, ctx, i).Ok?
    ensures !Get(Process(s, ctx, i).value, Target(i).value).data.TokenData?
  {
    hide InitExtension, UnpackUninitialized, TryCalculateAccountLen, ValidMintCombination, L.BlankExt, NonZero;
  }

  lemma NewTokenEdit(s: State, ctx: Ctx, i: Instr)
    requires !Initializes(i) && Target(i).Some? && Process(s, ctx, i).Ok?
    ensures IsToken(Process(s, ctx, i).value, Target(i).value) ==> IsToken(s, Target(i).value)
  {
    hide Multisigs.ValidateOwner, InitExtension, L.CheckMint, L.SetTokenAuthority, L.SetMintAuthority;
  }

  lemma NoNewTokenMoves(s: State, ctx: Ctx, i: Instr, k: Pubkey)
    requires (i.Transfer? || i.MintTo? || i.Burn? || i.CloseAccount?) && Process(s, ctx, i).Ok?
    ensures IsToken(Process(s, ctx, i).value, k) ==> IsToken(s, k)
  {
    hide Process, L.AuthorizeDebit, BurnDebit, Terms, L.CheckCloseMint, L.CheckCloseToken;
    match i
    case Transfer(_, _, _, _, _, _, _) =>
      if i.account == i.dest { SelfTransfer(s, ctx, i); } else { var a', fee := TransferParts(s, ctx, i); }
    case MintTo(_, _, _, _, _, _) => MintToParts(s, ctx, i);
    case Burn(_, _, _, _, _, _) => var a' := BurnParts(s, ctx, i);
    case CloseAccount(_, _, _, _) => CloseParts(s, ctx, i);
  }

  lemma NoNewTokenLamports(s: State, ctx: Ctx, i: Instr, k: Pubkey)
    requires (i.Reallocate? || i.CreateNativeMint? || i.WithdrawExcessLamports?) && Process(s, ctx, i).Ok?
    ensures IsToken(Process(s, ctx, i).value, k) ==> IsToken(s, k)
  {
    hide Multisigs.ValidateOwner, L.CheckWithdrawExcess, TryCalculateAccountLen, L.SystemTransfer, L.Grow;
    if i.CreateNativeMint? {
      var have, reserve := Get(s, NATIVE_MINT).lamports, ctx.rent(MINT_LEN);
      SystemTransferKeepsData(s, i.payer, NATIVE_MINT, if reserve > have then reserve - have else 0, k);
    } else if i.Reallocate? && Process(s, ctx, i).value != s {
      var needed := TryCalculateAccountLen(AccountBase, Get(s, i.account).data.token.types + i.newTypes).value;
      GrowMakesNone(s, ctx, i.account, i.payer, needed, k);
    }
  }

  lemma GrowMakesNone(s: State, ctx: Ctx, k: Pubkey, payer: Signer, needed: nat, j: Pubkey)
    requires Get(s, k).data.TokenData? && L.Grow(s, ctx, k, payer, needed).Ok?
    ensures IsToken(L.Grow(s, ctx, k, payer, needed).value, j) ==> IsToken(s, j)
  {
    hide L.SystemTransfer;
    var i := Get(s, k);
    var a := i.data.token;
    var grown := s[k := i.(dataLen := needed)];
    var reserve := ctx.rent(needed);
    var current := i.lamports - (if a.native.Some? then a.amount else 0);
    if reserve > current {
      SystemTransferKeepsData(grown, payer, k, reserve - current, j);
    }
  }

  lemma {:induction false} NoNewTokenHarvest(s: State, mintKey: Pubkey, sources: seq<Pubkey>, k: Pubkey)
    requires Get(s, mintKey).data.MintData? && L.HarvestAll(s, mintKey, sources).Ok?
    ensures IsToken(L.HarvestAll(s, mintKey, sources).value, k) ==> IsToken(s, k)
  {
    if sources != [] { NoNewTokenHarvest(s, mintKey, sources[..|sources| - 1], k); }
  }

  lemma {:induction false} NoNewTokenWithdraw(s: State, mintKey: Pubkey, dest: Pubkey, sources: seq<Pubkey>, k: Pubkey)
    requires Get(s, dest).data.TokenData? && L.WithdrawAll(s, mintKey, dest, sources).Ok?
    ensures IsToken(L.WithdrawAll(s, mintKey, dest, sources).value, k) ==> IsToken(s, k)
  {
    if sources != [] {
      WithdrawAllKeepsDest(s, mintKey, dest, sources[..|sources| - 1]);
      NoNewTokenWithdraw(s, mintKey, dest, sources[..|sources| - 1], k);
    }
  }

  lemma NoNewTokenFees(s: State, ctx: Ctx, i: Instr, k: Pubkey)
    requires i.HarvestWithheldToMint? || i.WithdrawWithheldFromAccounts? || i.WithdrawWithheldFromMint?
    requires Process(s, ctx, i).Ok?
    ensures IsToken(Process(s, ctx, i).value, k) ==> IsToken(s, k)
  {
    hide L.CheckWithdrawal, L.HarvestAll, L.WithdrawAll;
    if i.HarvestWithheldToMint? {
      NoNewTokenHarvest(s, i.mint, i.sources, k);
    } else {
      WithdrawalChecked(s, i.mint, i.dest, i.authority, i.signers);
      if i.WithdrawWithheldFromAccounts? { NoNewTokenWithdraw(s, i.mint, i.dest, i.sources, k); }
    }
  }

  // ------------------------------------------------------------------ required extensions

  /** The account carries every extension its mint's extensions require. */
  ghost predicate Carries(a: Token, m: Mint) {
    forall t :: t in RequiredInitAccountExtensions(m.types) ==> t in a.types
  }

  /** Accounts of `m` exist only once `m` is a mint, and carry what it requires. */
  ghost predicate Equipped(s: State, m: Pubkey) {
    forall k :: IsToken(s, k) && TokenAt(s, k).mint == m ==> IsMint(s, m) && Carries(TokenAt(s, k), MintAt(s, m))
  }

  lemma EquippedStep(s: State, e: Step, m: Pubkey)
    requires Good(s) && Equipped(s, m) && !Happens(s, e, Closing(m))
    ensures Equipped(Next(s, e), m)
  {
    hide Good, Next, Process, Commits, Carries;
    var s' := Next(s, e);
    forall k | IsToken(s', k) && TokenAt(s', k).mint == m
      ensures IsMint(s', m) && Carries(TokenAt(s', k), MintAt(s', m))
    {
      EquippedAccount(s, e, m, k);
    }
  }

  lemma EquippedAccount(s: State, e: Step, m: Pubkey, k: Pubkey)
    requires Good(s) && Equipped(s, m) && !Happens(s, e, Closing(m))
    requires IsToken(Next(s, e), k) && TokenAt(Next(s, e), k).mint == m
    ensures IsMint(Next(s, e), m) && Carries(TokenAt(Next(s, e), k), MintAt(Next(s, e), m))
  {
    hide Good, Process, RuntimeAccepts, RequiredInitAccountExtensions;
    if IsToken(s, k) {
      TokenNext(s, e, k);
    } else if e.Call? && Commits(s, e.ctx, e.instr) {
      NewToken(s, e.ctx, e.instr, k);
    }
    if IsMint(s, m) { MintNext(s, e, m); }
  }

  /** In every run from the start that never closes `m`, all accounts of `m` carry what the mint requires. */
  lemma {:induction false} AccountsEquipped(s: State, es: seq<Step>, m: Pubkey)
    requires Genesis(s) && NeverHappens(s, es, Closing(m))
    ensures Equipped(Run(s, es), m)
  {
    hide Next, Good, Equipped, Happens;
    if es == [] {
      NoTokensAtGenesis(s, m);
    } else {
      var n := |es| - 1;
      AccountsEquipped(s, es[..n], m);
      InvAlong(s, es[..n]);
      EquippedStep(Run(s, es[..n]), es[n], m);
    }
  }

  lemma NoTokensAtGenesis(s: State, m: Pubkey)
    requires Genesis(s)
    ensures Equipped(s, m)
  {
  }

  // ------------------------------------------------------------------ non-transferable mints

  /** A pinned account never transfers, and its owner never changes. */
  lemma PinnedMeans(s: State, e: Step, k: Pubkey)
    requires Good(s) && IsToken(s, k)
    requires NON_TRANSFERABLE_ACCOUNT in TokenAt(s, k).types && IMMUTABLE_OWNER in TokenAt(s, k).types
    ensures e.Call? && e.instr.Transfer? && e.instr.account == k ==> Process(s, e.ctx, e.instr).Err?
    ensures !Happens(s, e, Closing(k)) ==> IsToken(Next(s, e), k) && TokenAt(Next(s, e), k).owner == TokenAt(s, k).owner
  {
    hide Good, Next, Commits, Process;
    TokenNext(s, e, k);
    if e.Call? && e.instr.Transfer? && e.instr.account == k { PinnedRefuses(s, e.ctx, e.instr); }
  }

  lemma PinnedRefuses(s: State, ctx: Ctx, i: Instr)
    requires i.Transfer? && IsToken(s, i.account) && NON_TRANSFERABLE_ACCOUNT in TokenAt(s, i.account).types
    ensures Process(s, ctx, i).Err?
  {
    hide Multisigs.ValidateOwner, L.TransferTerms, L.AuthorizeDebit, L.Move;
  }

  /**
   Non-transferable tokens: after any run from the start that never closes the mint, no transfer from any account of
   a non-transferable mint succeeds, and no step short of closing the account changes its owner.
   */
  lemma NonTransferableStaysPut(s: State, es: seq<Step>, m: Pubkey, k: Pubkey, e: Step)
    requires Genesis(s) && NeverHappens(s, es, Closing(m))
    requires var t := Run(s, es);
             && IsToken(t, k) && TokenAt(t, k).mint == m
             && Get(t, m).data.MintData? && NON_TRANSFERABLE in Get(t, m).data.mint.types
    ensures var t := Run(s, es);
            && IsMint(t, m)
            && (e.Call? && e.instr.Transfer? && e.instr.account == k ==> Process(t, e.ctx, e.instr).Err?)
            && (!Happens(t, e, Closing(k)) ==>
                IsToken(Next(t, e), k) && TokenAt(Next(t, e), k).owner == TokenAt(t, k).owner)
  {
    hide Good, Next, Process, Happens, Genesis, NeverHappens;
    AccountsEquipped(s, es, m);
    InvAlong(s, es);
    PinnedMeans(Run(s, es), e, k);
  }

  // ------------------------------------------------------------------ what an instruction insists on

  /** An account that asks for memos receives nothing without one. */
  lemma MemoEnforced(s: State, ctx: Ctx, i: Instr)
    requires i.Transfer? && i.account != i.dest && IsToken(s, i.dest)
    requires MEMO_TRANSFER in TokenAt(s, i.dest).types && TokenAt(s, i.dest).memoRequired && !ctx.memoBefore
    ensures Process(s, ctx, i).Err?
  {
    hide Process, Terms, L.AuthorizeDebit;
    if Process(s, ctx, i).Ok? {
      var a', fee := TransferParts(s, ctx, i);
    }
  }

  /** The decimals a caller states and those of the mint it names. */
  function StatedDecimals(i: Instr): Option<(Pubkey, u8)> {
    match i
    case Transfer(_, c, _, _, _, _, _) => if c.Some? then Some((c.value.mint, c.value.decimals)) else None
    case Approve(_, c, _, _, _, _) => if c.Some? then Some((c.value.mint, c.value.decimals)) else None
    case MintTo(m, _, d, _, _, _) => if d.Some? then Some((m, d.value)) else None
    case Burn(_, m, d, _, _, _) => if d.Some? then Some((m, d.value)) else None
    case _ => None
  }

  /** A checked instruction succeeds only on the account's own mint, and with that mint's decimals. */
  lemma CheckedDecimalsAgree(s: State, ctx: Ctx, i: Instr)
    requires StatedDecimals(i).Some? && Process(s, ctx, i).Ok?
    ensures var (m, decimals) := StatedDecimals(i).value;
            var token := if i.MintTo? then i.dest else i.account;
            && Get(s, m).data.MintData? && Get(s, m).data.mint.decimals == decimals
            && Get(s, token).data.TokenData? && Get(s, token).data.token.mint == m
  {
    hide Multisigs.ValidateOwner, L.AuthorizeDebit, L.Move, FeeOf;
  }

  /** What an account of the system program or the incinerator still holds can only be burned: its lamports too. */
  lemma AbandonedLamportsAreBurned(s: State, ctx: Ctx, i: Instr)
    requires i.CloseAccount? && IsToken(s, i.account) && TokenAt(s, i.account).OwnedBySystemOrIncinerator()
    requires Process(s, ctx, i).Ok?
    ensures i.dest == INCINERATOR && Get(Process(s, ctx, i).value, INCINERATOR).lamports >= Get(s, i.account).lamports
  {
    hide Multisigs.ValidateOwner;
  }
}
