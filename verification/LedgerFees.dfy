/** Transfer fees over runs: no transfer escapes them, and they change with notice. */
module LedgerFees {
  import opened Bytes
  import opened Common
  import opened ExtensionTypes
  import opened TransferFees
  import opened LedgerState
  import opened LedgerRuns
  import opened LedgerGood
  import opened LedgerBalance
  import opened LedgerTheorems
  import Multisigs
  import L = Ledger

  /** The fee of a transfer out of an account that carries what its fee-charging mint requires. */
  lemma TermsChargeFee(s: State, ctx: Ctx, i: Instr)
    requires i.Transfer? && IsToken(s, i.account) && Terms(s, ctx, i).Ok?
    requires var a := TokenAt(s, i.account);
             IsMint(s, a.mint) && Carries(a, MintAt(s, a.mint)) && TRANSFER_FEE_CONFIG in MintAt(s, a.mint).types
    ensures var m := MintAt(s, TokenAt(s, i.account).mint);
            CalculateFee(EpochFee(m.ext.fee.older, m.ext.fee.newer, ctx.epoch), i.amount) ==
                Some(Terms(s, ctx, i).value.0)
  {
    hide CalculateFee;
    var a := TokenAt(s, i.account);
    assert TRANSFER_FEE_AMOUNT in RequiredInitAccountExtensions(MintAt(s, a.mint).types);
  }

  /**
   No transfer escapes the fee: after any run from the start that never closes the mint, a transfer between two
   accounts of a fee-charging mint moves the amount out of the source, splits it between the destination's balance
   and its withheld tokens by exactly the fee in force, and fails if the caller expected another fee.
   */
  lemma FeeAlwaysWithheld(s: State, es: seq<Step>, m: Pubkey, ctx: Ctx, i: Instr)
    requires Genesis(s) && NeverHappens(s, es, Closing(m))
    requires i.Transfer? && i.account != i.dest
    requires var t := Run(s, es);
             && IsToken(t, i.account) && TokenAt(t, i.account).mint == m && Process(t, ctx, i).Ok?
             && Get(t, m).data.MintData? && TRANSFER_FEE_CONFIG in Get(t, m).data.mint.types
    ensures var t := Run(s, es);
            var t' := Process(t, ctx, i).value;
            var config := Get(t, m).data.mint.ext.fee;
            && IsToken(t, i.dest) && IsToken(t', i.account) && IsToken(t', i.dest)
            && TokenAt(t', i.account).amount == TokenAt(t, i.account).amount - i.amount
            && var fee := CalculateFee(EpochFee(config.older, config.newer, ctx.epoch), i.amount);
               && fee.Some? && (i.expectedFee.Some? ==> i.expectedFee == fee)
               && TokenAt(t', i.dest).amount == TokenAt(t, i.dest).amount + i.amount - fee.value
               && TokenAt(t', i.dest).withheld == TokenAt(t, i.dest).withheld + fee.value
  {
    hide Process, Run, Genesis, NeverHappens, Terms, L.AuthorizeDebit, CalculateFee, Carries;
    var t := Run(s, es);
    AccountsEquipped(s, es, m);
    var a', fee := TransferParts(t, ctx, i);
    TermsChargeFee(t, ctx, i);
  }

  /** Where the generic state error of a transfer could come from. */
  lemma InvalidStateUnfolds(s: State, ctx: Ctx, i: Instr)
    requires i.Transfer? && IsToken(s, i.account) && Process(s, ctx, i) == Err(InvalidState)
    ensures Terms(s, ctx, i).Ok? && Terms(s, ctx, i).value.0 > 0 && IsToken(s, i.dest)
    ensures TokenAt(s, i.dest).mint == TokenAt(s, i.account).mint && TRANSFER_FEE_AMOUNT !in TokenAt(s, i.dest).types
  {
    hide L.AuthorizeDebit, L.Move, L.TransferTerms, Process;
    TransferUnfolds(s, ctx, i, InvalidState);
    var a := TokenAt(s, i.account);
    TermsNeverInvalid(s, ctx, a, i.checked, i.amount);
    var (fee, pd, hook) := Terms(s, ctx, i).value;
    DebitNeverInvalid(s, ctx, a, pd, i.authority, i.signers, i.amount, i.account != i.dest);
    var a' := L.AuthorizeDebit(s, ctx, a, pd, i.authority, i.signers, i.amount, i.account != i.dest,
                               CpiGuardTransferBlocked).value;
    MoveInvalid(s, ctx, i.account, a', i.dest, i.amount, fee, hook);
  }

  lemma TermsNeverInvalid(s: State, ctx: Ctx, a: Token, checked: Option<L.Checked>, amount: u64)
    ensures L.TransferTerms(s, ctx, a, checked, amount) != Err(InvalidState)
  {
    hide CalculateFee;
  }

  lemma DebitNeverInvalid(s: State, ctx: Ctx, a: Token, pd: Option<Pubkey>, authority: Signer, signers: seq<Signer>,
                          amount: u64, charge: bool)
    ensures var r := L.AuthorizeDebit(s, ctx, a, pd, authority, signers, amount, charge, CpiGuardTransferBlocked);
            r != Err(InvalidState) && (r.Ok? ==> r.value.mint == a.mint)
  {
    hide Multisigs.Authorizes;
  }

  lemma MoveInvalid(s: State, ctx: Ctx, source: Pubkey, a: Token, dest: Pubkey, amount: u64, fee: u64,
                    hook: Option<Pubkey>)
    requires L.Move(s, ctx, source, a, dest, amount, fee, hook) == Err(InvalidState)
    ensures var i := Get(s, dest);
            i.data.TokenData? && i.data.token.mint == a.mint && fee > 0 && TRANSFER_FEE_AMOUNT !in i.data.token.types
  {
  }

  /**
   The error a transfer reserves for a destination that cannot withhold its fee never occurs, as long as the mint is
   never closed.
   */
  lemma DestinationCanWithhold(s: State, es: seq<Step>, ctx: Ctx, i: Instr)
    requires Genesis(s) && i.Transfer? && IsToken(Run(s, es), i.account)
    requires NeverHappens(s, es, Closing(TokenAt(Run(s, es), i.account).mint))
    ensures Process(Run(s, es), ctx, i) != Err(InvalidState)
  {
    hide Process, Run, Genesis, NeverHappens, CalculateFee;
    var t := Run(s, es);
    var m := TokenAt(t, i.account).mint;
    AccountsEquipped(s, es, m);
    if Process(t, ctx, i) == Err(InvalidState) {
      InvalidStateUnfolds(t, ctx, i);
    }
  }

  /**
   A change of fee takes effect two epochs later: until then the fee that was in force at the change applies, from
   then on the new one.
   */
  lemma FeeChangesWithNotice(s: State, ctx: Ctx, i: Instr, epoch: u64)
    requires i.SetTransferFee? && Process(s, ctx, i).Ok?
    ensures Get(s, i.mint).data.MintData? && Get(Process(s, ctx, i).value, i.mint).data.MintData?
    ensures var before, after := Get(s, i.mint).data.mint.ext.fee,
        Get(Process(s, ctx, i).value, i.mint).data.mint.ext.fee;
            var inForce, now := EpochFee(after.older, after.newer, epoch),
                EpochFee(before.older, before.newer, ctx.epoch);
            && (epoch < ctx.epoch + 2 && epoch < U64_MAX ==> inForce == now)
            && (epoch >= ctx.epoch + 2 || epoch == U64_MAX ==>
                  inForce.basisPoints == i.basisPoints && inForce.maximumFee == i.maximumFee)
  {
    hide Multisigs.ValidateOwner;
  }
}
