/**
 Whose signature each change needs, step by step and over runs. The one exception, an authority whose account is an
 unclaimed multisig, is explicit throughout.
 */
module LedgerConsent {
  import opened Bytes
  import opened Common
  import opened ExtensionTypes
  import opened LedgerState
  import opened LedgerRuns
  import opened LedgerGood
  import opened LedgerBalance
  import opened LedgerTokens
  import opened LedgerTheorems
  import opened LedgerSigners
  import Multisigs
  import L = Ledger

  /** The authority an instruction names, with the further signers. */
  function AuthorityOf(i: Instr): Option<(Signer, seq<Signer>)> {
    if i.Transfer? || i.Approve? || i.Revoke? || i.SetAuthority? || i.MintTo? || i.Burn? || i.CloseAccount?
       || i.ToggleFreeze? || i.UpdateDefaultAccountState? || i.WithdrawExcessLamports? || i.Reallocate?
       || i.ToggleCpiGuard? || i.ToggleMemo? || i.SetTransferFee? || i.WithdrawWithheldFromMint?
       || i.WithdrawWithheldFromAccounts?
    then Some((i.authority, i.signers)) else None
  }

  /** The program's own check passes for `p`. */
  predicate Agrees(s: State, i: Instr, p: Pubkey) {
    AuthorityOf(i).Some? && Multisigs.ValidateOwner(s, p, AuthorityOf(i).value.0, AuthorityOf(i).value.1).Ok?
  }

  predicate AgreesIfSet(s: State, i: Instr, p: Option<Pubkey>) {
    p.Some? && Agrees(s, i, p.value)
  }

  /** The step is an instruction that takes effect, and `p` really signed it. */
  predicate Signs(s: State, e: Step, p: Pubkey) {
    && e.Call? && Commits(s, e.ctx, e.instr)
    && AuthorityOf(e.instr).Some? && SignedBy(s, p, AuthorityOf(e.instr).value.0, AuthorityOf(e.instr).value.1)
  }

  /** `p` signed, or is an account nobody has claimed as a multisig. */
  predicate Consents(s: State, e: Step, p: Pubkey) {
    Signs(s, e, p) || Unclaimed(s, p)
  }

  predicate ConsentsIfSet(s: State, e: Step, p: Option<Pubkey>) {
    p.Some? && Consents(s, e, p.value)
  }

  lemma AgreedConsents(s: State, e: Step, p: Pubkey)
    requires Good(s) && e.Call? && Commits(s, e.ctx, e.instr) && Agrees(s, e.instr, p)
    ensures Consents(s, e, p)
  {
    hide Good, Commits, Multisigs.ValidateOwner, SignedBy, Unclaimed;
    AgreementIsSigned(s, p, AuthorityOf(e.instr).value.0, AuthorityOf(e.instr).value.1);
  }

  function PermanentDelegateAt(s: State, m: Pubkey): Option<Pubkey> {
    if Get(s, m).data.MintData? then PermanentDelegateOf(Get(s, m).data.mint) else None
  }

  function FreezeAuthorityAt(s: State, m: Pubkey): Option<Pubkey> {
    if Get(s, m).data.MintData? then Get(s, m).data.mint.freezeAuthority else None
  }

  // ------------------------------------------------------------------ instructions

  lemma TransferConsent(s: State, ctx: Ctx, i: Instr)
    requires i.Transfer? && IsToken(s, i.account) && Process(s, ctx, i).Ok?
    ensures var a := TokenAt(s, i.account);
            || Agrees(s, i, a.owner)
            || (AgreesIfSet(s, i, a.delegate) && i.amount <= a.delegatedAmount)
            || AgreesIfSet(s, i, PermanentDelegateAt(s, a.mint))
  {
    hide Multisigs.ValidateOwner, L.Move, FeeOf;
  }

  lemma BurnConsent(s: State, ctx: Ctx, i: Instr)
    requires i.Burn? && IsToken(s, i.account) && Process(s, ctx, i).Ok?
    ensures var a := TokenAt(s, i.account);
            || a.OwnedBySystemOrIncinerator()
            || Agrees(s, i, a.owner)
            || (AgreesIfSet(s, i, a.delegate) && i.amount <= a.delegatedAmount)
            || AgreesIfSet(s, i, PermanentDelegateAt(s, a.mint))
  {
    hide Multisigs.ValidateOwner;
  }

  lemma AuthorityConsent(s: State, ctx: Ctx, i: Instr)
    requires i.SetAuthority? && IsToken(s, i.account) && Process(s, ctx, i).Ok?
    ensures var a := TokenAt(s, i.account);
            if i.kind.AccountOwner? then Agrees(s, i, a.owner) else Agrees(s, i, L.CloseAuthorityOf(a))
  {
    hide Multisigs.ValidateOwner;
  }

  lemma ApproveConsent(s: State, ctx: Ctx, i: Instr)
    requires i.Approve? && IsToken(s, i.account) && Process(s, ctx, i).Ok?
    ensures Agrees(s, i, TokenAt(s, i.account).owner)
  {
    hide Multisigs.ValidateOwner, L.CheckMint;
  }

  lemma CloseConsent(s: State, ctx: Ctx, i: Instr)
    requires i.CloseAccount? && Process(s, ctx, i).Ok?
    ensures match Get(s, i.account).data
            case TokenData(a) => a.OwnedBySystemOrIncinerator() || Agrees(s, i, L.CloseAuthorityOf(a))
            case MintData(m) => AgreesIfSet(s, i, m.ext.closeAuthority)
            case _ => false
  {
    hide Multisigs.ValidateOwner;
  }

  lemma MintConsent(s: State, ctx: Ctx, i: Instr)
    requires i.MintTo? && IsMint(s, i.mint) && Process(s, ctx, i).Ok?
    ensures AgreesIfSet(s, i, MintAt(s, i.mint).authority)
  {
    hide Multisigs.ValidateOwner;
  }

  lemma MintAuthorityConsent(s: State, ctx: Ctx, i: Instr)
    requires i.SetAuthority? && IsMint(s, i.account) && Process(s, ctx, i).Ok?
    ensures AgreesIfSet(s, i, AuthorityAt(MintAt(s, i.account), i.kind))
  {
    hide Multisigs.ValidateOwner, L.SetMintAuthority, AuthorityAt;
    SetMintAuthorityMeans(s, MintAt(s, i.account), i.kind, i.newAuthority, i.authority, i.signers);
  }

  lemma FreezeConsent(s: State, ctx: Ctx, i: Instr)
    requires i.ToggleFreeze? && IsToken(s, i.account) && Process(s, ctx, i).Ok?
    ensures AgreesIfSet(s, i, FreezeAuthorityAt(s, TokenAt(s, i.account).mint))
  {
    hide Multisigs.ValidateOwner;
  }

  // ------------------------------------------------------------------ steps

  /** What a step needs from the authorities, in terms of the program's own check. */
  lemma TokenAgreement(s: State, ctx: Ctx, i: Instr, k: Pubkey)
    requires Good(s) && IsToken(s, k) && Process(s, ctx, i).Ok?
    ensures var a, s' := TokenAt(s, k), Process(s, ctx, i).value;
            if !IsToken(s', k) then a.OwnedBySystemOrIncinerator() || Agrees(s, i, L.CloseAuthorityOf(a))
            else
              var b := TokenAt(s', k);
              && (b.amount < a.amount ==>
                    || a.OwnedBySystemOrIncinerator()
                    || Agrees(s, i, a.owner)
                    || (AgreesIfSet(s, i, a.delegate) && a.amount - b.amount <= a.delegatedAmount)
                    || AgreesIfSet(s, i, PermanentDelegateAt(s, a.mint)))
              && (b.owner != a.owner ==> Agrees(s, i, a.owner))
              && (b.closeAuthority != a.closeAuthority ==> Agrees(s, i, a.owner) || Agrees(s, i, L.CloseAuthorityOf(a)))
              && (b.delegate.Some? && (b.delegate != a.delegate || b.delegatedAmount > a.delegatedAmount) ==>
                    Agrees(s, i, a.owner))
              && (b.frozen != a.frozen ==> AgreesIfSet(s, i, FreezeAuthorityAt(s, a.mint)))
  {
    hide Good, Process, Agrees;
    TokenStep(s, ctx, i, k);
    if i.Transfer? && i.account == k { TransferConsent(s, ctx, i); }
    if i.Burn? && i.account == k { BurnConsent(s, ctx, i); }
    if i.SetAuthority? && i.account == k { AuthorityConsent(s, ctx, i); }
    if i.Approve? && i.account == k { ApproveConsent(s, ctx, i); }
    if i.ToggleFreeze? && i.account == k { FreezeConsent(s, ctx, i); }
    if Closes(i, k) { CloseConsent(s, ctx, i); }
  }

  /**
   Whatever a step takes from a token account was signed for: tokens leave it by the signature of the owner, of the
   delegate within its allowance, of the mint's permanent delegate, or when nobody owns it; its owner, its close
   authority, its delegation and its frozen flag change by the signature of whoever decides on them; and only the close
   authority ends it. An unclaimed multisig counts as having signed.
   */
  lemma TokenConsent(s: State, e: Step, k: Pubkey)
    requires Good(s) && IsToken(s, k)
    ensures !IsToken(Next(s, e), k) ==>
              TokenAt(s, k).OwnedBySystemOrIncinerator() || Consents(s, e, L.CloseAuthorityOf(TokenAt(s, k)))
    ensures IsToken(Next(s, e), k) ==>
              var a, b := TokenAt(s, k), TokenAt(Next(s, e), k);
              && (b.amount < a.amount ==>
                    || a.OwnedBySystemOrIncinerator()
                    || Consents(s, e, a.owner)
                    || (ConsentsIfSet(s, e, a.delegate) && a.amount - b.amount <= a.delegatedAmount)
                    || ConsentsIfSet(s, e, PermanentDelegateAt(s, a.mint)))
              && (b.owner != a.owner ==> Consents(s, e, a.owner))
              && (b.closeAuthority != a.closeAuthority ==>
                    Consents(s, e, a.owner) || Consents(s, e, L.CloseAuthorityOf(a)))
              && (b.delegate.Some? && (b.delegate != a.delegate || b.delegatedAmount > a.delegatedAmount) ==>
                    Consents(s, e, a.owner))
              && (b.frozen != a.frozen ==> ConsentsIfSet(s, e, FreezeAuthorityAt(s, a.mint)))
  {
    hide Good, Process, Agrees, Consents, RuntimeAccepts;
    if e.Call? && Commits(s, e.ctx, e.instr) {
      TokenAgreement(s, e.ctx, e.instr, k);
      forall p | Agrees(s, e.instr, p)
        ensures Consents(s, e, p)
      {
        AgreedConsents(s, e, p);
      }
    }
  }

  /**
   A mint's supply rises, its authorities of every kind change and it ends only by the signature of the authority in
   charge, an unclaimed multisig counting as having signed.
   */
  lemma MintNeedsConsent(s: State, e: Step, m: Pubkey)
    requires Good(s) && IsMint(s, m)
    ensures !IsMint(Next(s, e), m) ==> ConsentsIfSet(s, e, MintAt(s, m).ext.closeAuthority) && MintAt(s, m).supply == 0
    ensures IsMint(Next(s, e), m) ==>
              var x, y := MintAt(s, m), MintAt(Next(s, e), m);
              && (y.supply > x.supply ==> ConsentsIfSet(s, e, x.authority))
              && forall kind :: AuthorityAt(y, kind) != AuthorityAt(x, kind) ==>
                  ConsentsIfSet(s, e, AuthorityAt(x, kind))
  {
    hide Good, Process, Agrees, Consents, RuntimeAccepts, AuthorityAt;
    MintNext(s, e, m);
    if e.Call? && Commits(s, e.ctx, e.instr) {
      if e.instr.MintTo? && e.instr.mint == m { MintConsent(s, e.ctx, e.instr); }
      if e.instr.SetAuthority? && e.instr.account == m { MintAuthorityConsent(s, e.ctx, e.instr); }
      if Closes(e.instr, m) { CloseConsent(s, e.ctx, e.instr); }
      forall p | Agrees(s, e.instr, p)
        ensures Consents(s, e, p)
      {
        AgreedConsents(s, e, p);
      }
    }
  }

  /** The instructions that can take something from token account `k`: they name it as source or as what changes. */
  predicate ActsOn(i: Instr, k: Pubkey) {
    && (i.Transfer? || i.Burn? || i.Approve? || i.SetAuthority? || i.CloseAccount?)
    && i.account == k
  }

  /** No other instruction, and no outside step, takes anything from the account. */
  lemma OthersTakeNothing(s: State, e: Step, k: Pubkey)
    requires Good(s) && IsToken(s, k) && !(e.Call? && Commits(s, e.ctx, e.instr) && ActsOn(e.instr, k))
    ensures IsToken(Next(s, e), k)
    ensures var a, b := TokenAt(s, k), TokenAt(Next(s, e), k);
            && b.mint == a.mint && b.owner == a.owner && b.closeAuthority == a.closeAuthority && b.amount >= a.amount
            && (b.delegate == a.delegate || b.delegate.None?) && b.delegatedAmount <= a.delegatedAmount
  {
    hide Next, Good, Commits;
    TokenNext(s, e, k);
  }

  // ------------------------------------------------------------------ runs

  /** Nothing that takes effect in the run and acts on `k` is signed by `p`; other accounts are no concern. */
  predicate Silent(s: State, es: seq<Step>, k: Pubkey, p: Pubkey) {
    es == [] ||
    (Silent(s, es[..|es| - 1], k, p) &&
     var t, e := Run(s, es[..|es| - 1]), es[|es| - 1];
     !(Signs(t, e, p) && ActsOn(e.instr, k)))
  }

  /** Nobody but the owner has power over the account. */
  predicate Sole(a: Token) {
    a.delegate.None? && a.closeAuthority.None? && !a.OwnedBySystemOrIncinerator()
  }

  /**
   Tokens are safe without their owner's signature: over any run in which the owner signs nothing that acts on the
   account and is never an unclaimed multisig, an account with no delegate and no close authority, of a mint without
   permanent delegate that is not closed meanwhile, stays the owner's, gains no delegate and no close authority, and
   loses no tokens.
   */
  lemma {:induction false} SilentOwnerKeepsTokens(s: State, es: seq<Step>, k: Pubkey)
    requires Good(s) && IsToken(s, k) && Sole(TokenAt(s, k)) && NoPermanentDelegate(s, TokenAt(s, k).mint)
    requires NeverHappens(s, es, Closing(TokenAt(s, k).mint))
    requires Silent(s, es, k, TokenAt(s, k).owner) && NeverUnclaimed(s, es, TokenAt(s, k).owner)
    ensures IsToken(Run(s, es), k)
    ensures var a, b := TokenAt(s, k), TokenAt(Run(s, es), k);
            Sole(b) && b.owner == a.owner && b.mint == a.mint && b.amount >= a.amount
  {
    hide Next, Good, Signs, Unclaimed, Commits, Evolves, PermanentDelegateOf;
    if es != [] {
      var n := |es| - 1;
      SilentOwnerKeepsTokens(s, es[..n], k);
      GoodAlong(s, es[..n]);
      NoPermanentDelegateAlong(s, es[..n], TokenAt(s, k).mint);
      NeverUnclaimedBefore(s, es, TokenAt(s, k).owner);
      SilentStep(Run(s, es[..n]), es[n], k);
    }
  }

  lemma SilentStep(s: State, e: Step, k: Pubkey)
    requires Good(s) && IsToken(s, k) && Sole(TokenAt(s, k)) && NoPermanentDelegate(s, TokenAt(s, k).mint)
    requires var p := TokenAt(s, k).owner; !Unclaimed(s, p) && !(Signs(s, e, p) && ActsOn(e.instr, k))
    ensures IsToken(Next(s, e), k)
    ensures var a, b := TokenAt(s, k), TokenAt(Next(s, e), k);
            Sole(b) && b.owner == a.owner && b.mint == a.mint && b.amount >= a.amount
  {
    hide Next, Good, Signs, Unclaimed, Commits, Evolves, PermanentDelegateOf, ActsOn;
    if e.Call? && Commits(s, e.ctx, e.instr) && ActsOn(e.instr, k) {
      TokenConsent(s, e, k);
      MintUnchanged(s, e, k);
    } else {
      OthersTakeNothing(s, e, k);
    }
  }

  lemma NeverUnclaimedBefore(s: State, es: seq<Step>, p: Pubkey)
    requires es != [] && NeverUnclaimed(s, es, p)
    ensures NeverUnclaimed(s, es[..|es| - 1], p) && !Unclaimed(Run(s, es[..|es| - 1]), p)
  {
  }

  /**
   For an initialised multisig as owner, or a wallet that is not handed over to the program, the exception cannot
   arise: without the owner's signature on an instruction that acts on the account nothing is lost.
   */
  lemma OwnersTokensAreSafe(s: State, es: seq<Step>, k: Pubkey)
    requires Good(s) && IsToken(s, k) && Sole(TokenAt(s, k)) && NoPermanentDelegate(s, TokenAt(s, k).mint)
    requires NeverHappens(s, es, Closing(TokenAt(s, k).mint)) && Silent(s, es, k, TokenAt(s, k).owner)
    requires var p := TokenAt(s, k).owner;
             IsMultisig(s, p) || (p != NATIVE_MINT && Get(s, p).owner != TOKEN_PROGRAM && NotHandedOver(es, p))
    ensures IsToken(Run(s, es), k)
    ensures var a, b := TokenAt(s, k), TokenAt(Run(s, es), k);
            Sole(b) && b.owner == a.owner && b.mint == a.mint && b.amount >= a.amount
  {
    hide *;
    StaysClaimed(s, es, TokenAt(s, k).owner);
    SilentOwnerKeepsTokens(s, es, k);
  }

  lemma MintUnchanged(s: State, e: Step, k: Pubkey)
    requires Good(s) && IsToken(s, k) && IsToken(Next(s, e), k)
    ensures TokenAt(Next(s, e), k).mint == TokenAt(s, k).mint
  {
    hide Next, Good, Commits;
    TokenNext(s, e, k);
  }
}
