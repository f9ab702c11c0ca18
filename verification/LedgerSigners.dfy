/**
 Real signatures. `ValidateOwner` is the program's own check; here is when it passes without anybody signing, and what
 stands behind it otherwise.
 */
module LedgerSigners {
  import opened Bytes
  import opened Common
  import opened ExtensionTypes
  import opened LedgerState
  import opened LedgerRuns
  import opened LedgerGood
  import opened LedgerBalance
  import opened LedgerTokens
  import opened LedgerTheorems
  import Multisigs
  import L = Ledger

  predicate IsMultisig(s: State, k: Pubkey) {
    Get(s, k).owner == TOKEN_PROGRAM && Get(s, k).data.MultisigData?
  }

  function MultisigAt(s: State, k: Pubkey): Multisig
    requires IsMultisig(s, k)
  {
    Get(s, k).data.multisig
  }

  /** An account of the program with the length of a multisig that nobody has initialised as one. */
  predicate Unclaimed(s: State, k: Pubkey) {
    Get(s, k).owner == TOKEN_PROGRAM && Get(s, k).dataLen == MULTISIG_LEN && !Get(s, k).data.MultisigData?
  }

  /** `p` really signed: the key itself, or at least `m`, and at least one, of the positions of the multisig. */
  predicate SignedBy(s: State, p: Pubkey, authority: Signer, signers: seq<Signer>) {
    && authority.key == p
    && if IsMultisig(s, p) then
         var x := MultisigAt(s, p);
         x.n <= |x.signers| && 1 <= x.m <= Multisigs.CountSigned(x.signers[..x.n], signers)
       else authority.isSigner
  }

  predicate NoSignature(authority: Signer, signers: seq<Signer>) {
    !authority.isSigner && forall i :: 0 <= i < |signers| ==> !signers[i].isSigner
  }

  /**
   The check passes if and only if the authority is the one expected and signed: with enough of its positions if it is
   a multisig, and without any signature exactly if it is an unclaimed account.
   */
  lemma AgreesIff(s: State, p: Pubkey, authority: Signer, signers: seq<Signer>)
    requires Good(s)
    ensures Multisigs.ValidateOwner(s, p, authority, signers).Ok? <==>
              && authority.key == p
              && if IsMultisig(s, p) then
                   var x := MultisigAt(s, p);
                   x.n <= |x.signers| && Multisigs.Authorizes(x, signers)
                 else Unclaimed(s, p) || authority.isSigner
  {
    hide Good, Multisigs.Authorizes;
    GoodAt(s, p);
    BlankAuthorizes(signers);
  }

  /** Behind every passed check stands a real signature, unless the authority is an unclaimed account. */
  lemma AgreementIsSigned(s: State, p: Pubkey, authority: Signer, signers: seq<Signer>)
    requires Good(s) && Multisigs.ValidateOwner(s, p, authority, signers).Ok?
    ensures SignedBy(s, p, authority, signers) || Unclaimed(s, p)
  {
    hide Good, Multisigs.Authorizes;
    GoodAt(s, p);
    if IsMultisig(s, p) {
      Multisigs.AuthorizedIsSigned(MultisigAt(s, p), signers);
    } else if Get(s, p).owner == TOKEN_PROGRAM && Get(s, p).dataLen == MULTISIG_LEN {
      assert Unclaimed(s, p);
    }
  }

  /**
   When nobody signs, the check passes if and only if the authority is an unclaimed account: its zeroed data reads as a
   multisig with no signers and a threshold of zero.
   */
  lemma UnsignedPassesIff(s: State, authority: Signer, signers: seq<Signer>)
    requires Good(s) && NoSignature(authority, signers)
    ensures Multisigs.ValidateOwner(s, authority.key, authority, signers).Ok? <==> Unclaimed(s, authority.key)
  {
    hide Good, Multisigs.Authorizes;
    var p := authority.key;
    if Unclaimed(s, p) {
      BlankAuthorizes(signers);
    } else if Multisigs.ValidateOwner(s, p, authority, signers).Ok? {
      AgreementIsSigned(s, p, authority, signers);
      if IsMultisig(s, p) {
        Multisigs.NobodySigned(MultisigAt(s, p).signers[..MultisigAt(s, p).n], signers);
      }
    }
  }

  lemma BlankAuthorizes(signers: seq<Signer>)
    ensures Multisigs.Authorizes(Multisig(0, 0, seq(MAX_SIGNERS, _ => 0)), signers)
  {
  }

  /** Such accounts can be made: hand over a zeroed account of that length, and its key passes without any signer. */
  lemma UnclaimedPassesUnsigned(s: State, k: Pubkey, lamports: u64)
    requires Good(s) && k != NATIVE_MINT && Get(s, k).owner != TOKEN_PROGRAM
    ensures var s' := Next(s, Outside(k, Info(TOKEN_PROGRAM, lamports, MULTISIG_LEN, ZEROED)));
            Unclaimed(s', k) && Multisigs.ValidateOwner(s', k, Signer(k, false), []).Ok?
  {
    hide Good;
    var e := Outside(k, Info(TOKEN_PROGRAM, lamports, MULTISIG_LEN, ZEROED));
    GoodNext(s, e);
    UnsignedPassesIff(Next(s, e), Signer(k, false), []);
  }

  // ------------------------------------------------------------------ multisigs last

  lemma SetupSparesMultisigs(s: State, ctx: Ctx, i: Instr)
    requires Initializes(i) && Process(s, ctx, i).Ok?
    ensures !Get(s, Target(i).value).data.MultisigData?
  {
    hide InitExtension, InitExtensions, TryCalculateAccountLen, RequiredInitAccountExtensions, ValidMintCombination,
         L.BlankExt, NonZero;
  }

  lemma EditSparesMultisigs(s: State, ctx: Ctx, i: Instr)
    requires !Initializes(i) && Target(i).Some? && Process(s, ctx, i).Ok?
    ensures !Get(s, Target(i).value).data.MultisigData?
  {
    hide Multisigs.ValidateOwner, L.SetTokenAuthority, L.SetMintAuthority, InitExtension, L.CheckMint;
  }

  lemma MultisigStep(s: State, ctx: Ctx, i: Instr, k: Pubkey)
    requires IsMultisig(s, k) && Process(s, ctx, i).Ok?
    ensures IsMultisig(Process(s, ctx, i).value, k) && MultisigAt(Process(s, ctx, i).value, k) == MultisigAt(s, k)
  {
    hide Process;
    if Target(i).Some? {
      SingleTarget(s, ctx, i);
      if Initializes(i) { SetupSparesMultisigs(s, ctx, i); } else { EditSparesMultisigs(s, ctx, i); }
    } else {
      PassiveStep(s, ctx, i, k);
    }
  }

  /** An initialised multisig keeps its signers and its threshold over every run. */
  lemma {:induction false} MultisigStays(s: State, es: seq<Step>, k: Pubkey)
    requires IsMultisig(s, k)
    ensures IsMultisig(Run(s, es), k) && MultisigAt(Run(s, es), k) == MultisigAt(s, k)
  {
    hide Process, RuntimeAccepts;
    if es != [] {
      var n := |es| - 1;
      MultisigStays(s, es[..n], k);
      var t := Run(s, es[..n]);
      match es[n]
      case Call(ctx, i) => if Commits(t, ctx, i) { MultisigStep(t, ctx, i, k); }
      case Outside(_, _) =>
    }
  }

  // ------------------------------------------------------------------ wallets stay out of the program

  /** No outside step hands the account to the program. */
  predicate NotHandedOver(es: seq<Step>, k: Pubkey) {
    forall j :: 0 <= j < |es| && es[j].Outside? && es[j].key == k ==> es[j].info.owner != TOKEN_PROGRAM
  }

  lemma WalletStep(s: State, e: Step, k: Pubkey)
    requires k != NATIVE_MINT && Get(s, k).owner != TOKEN_PROGRAM
    requires e.Outside? && e.key == k ==> e.info.owner != TOKEN_PROGRAM
    ensures Get(Next(s, e), k).owner != TOKEN_PROGRAM
  {
    hide Process;
    if e.Call? && Commits(s, e.ctx, e.instr) && k in SystemChanges(e.instr) {
      KeptByLamports(s, e.ctx, e.instr, k);
    }
  }

  lemma {:induction false} WalletStays(s: State, es: seq<Step>, k: Pubkey)
    requires k != NATIVE_MINT && Get(s, k).owner != TOKEN_PROGRAM && NotHandedOver(es, k)
    ensures Get(Run(s, es), k).owner != TOKEN_PROGRAM
  {
    hide Next;
    if es != [] {
      var n := |es| - 1;
      WalletStays(s, es[..n], k);
      WalletStep(Run(s, es[..n]), es[n], k);
    }
  }

  /** The account is at no point of the run unclaimed. */
  predicate NeverUnclaimed(s: State, es: seq<Step>, k: Pubkey) {
    !Unclaimed(Run(s, es), k) && (es == [] || NeverUnclaimed(s, es[..|es| - 1], k))
  }

  /** A multisig never becomes unclaimed, and neither does an account that is not handed over to the program. */
  lemma {:induction false} StaysClaimed(s: State, es: seq<Step>, k: Pubkey)
    requires IsMultisig(s, k) || (k != NATIVE_MINT && Get(s, k).owner != TOKEN_PROGRAM && NotHandedOver(es, k))
    ensures NeverUnclaimed(s, es, k)
  {
    if IsMultisig(s, k) { MultisigStays(s, es, k); } else { WalletStays(s, es, k); }
    if es != [] { StaysClaimed(s, es[..|es| - 1], k); }
  }
}
