/** What harvesting and withdrawing withheld fees takes, in closed form: from which accounts, how much, and when. */
module LedgerWithheld {
  import opened Bytes
  import opened Common
  import opened ExtensionTypes
  import opened LedgerState
  import opened LedgerRuns
  import opened LedgerTokens
  import opened LedgerConditions
  import Multisigs
  import L = Ledger

  /** The sum over the keys of a list, each counted once. */
  function SumOnce(ks: seq<Pubkey>, w: Pubkey -> nat): nat {
    if ks == [] then 0
    else
      var n := |ks| - 1;
      SumOnce(ks[..n], w) + if ks[n] in ks[..n] then 0 else w(ks[n])
  }

  /** The account bears fees of the mint. */
  predicate BearsFees(s: State, mint: Pubkey, k: Pubkey) {
    IsToken(s, k) && TokenAt(s, k).mint == mint && TRANSFER_FEE_AMOUNT in TokenAt(s, k).types
  }

  /** The withheld tokens harvesting finds in an account. */
  function Harvest(s: State, mint: Pubkey): Pubkey -> nat {
    k => if BearsFees(s, mint, k) then TokenAt(s, k).withheld else 0
  }

  /** The account after its withheld tokens were taken. */
  function Taken(i: Info): Info
    requires i.data.TokenData?
  {
    i.(data := TokenData(i.data.token.(withheld := 0)))
  }

  /** Every account after a harvest of `total` from the listed ones. */
  ghost predicate Harvested(s: State, s': State, mint: Pubkey, ks: seq<Pubkey>, total: nat)
    requires HasMint(s, mint)
  {
    var m := Get(s, mint).data.mint;
    && m.ext.fee.withheld + total <= U64_MAX
    && Get(s', mint) == Get(s, mint).(data := MintData(m.(ext := m.ext.(fee := m.ext.fee.(
                                        withheld := m.ext.fee.withheld + total)))))
    && forall k :: k != mint ==> Get(s', k) == if k in ks && BearsFees(s, mint, k) then Taken(Get(s, k)) else Get(s, k)
  }

  /**
   Harvesting any list, with repetitions and foreign accounts: it succeeds if and only if the total fits; then the
   mint has gained each listed account's withheld tokens once, those accounts have none left, and nothing else changed.
   */
  lemma {:induction false} HarvestMeans(s: State, mint: Pubkey, ks: seq<Pubkey>)
    requires HasMint(s, mint)
    ensures var total := SumOnce(ks, Harvest(s, mint));
            && (L.HarvestAll(s, mint, ks).Ok? <==> Get(s, mint).data.mint.ext.fee.withheld + total <= U64_MAX)
            && (L.HarvestAll(s, mint, ks).Ok? ==> Harvested(s, L.HarvestAll(s, mint, ks).value, mint, ks, total))
  {
    hide L.HarvestOne;
    if ks != [] {
      var n := |ks| - 1;
      HarvestMeans(s, mint, ks[..n]);
      assert ks == ks[..n] + [ks[n]];
      if L.HarvestAll(s, mint, ks[..n]).Ok? {
        HarvestOneMeans(L.HarvestAll(s, mint, ks[..n]).value, mint, ks[n]);
      }
    }
  }

  lemma HarvestOneMeans(s: State, mint: Pubkey, k: Pubkey)
    requires HasMint(s, mint)
    ensures var total := if BearsFees(s, mint, k) then TokenAt(s, k).withheld else 0;
            && (L.HarvestOne(s, mint, k).Ok? <==> Get(s, mint).data.mint.ext.fee.withheld + total <= U64_MAX)
            && (L.HarvestOne(s, mint, k).Ok? ==> Harvested(s, L.HarvestOne(s, mint, k).value, mint, [k], total))
  {
  }

  // ------------------------------------------------------------------ withdrawing

  /** The withheld tokens a withdrawal finds: the destination's own come without a second borrow. */
  function Withdrawal(s: State, mint: Pubkey, dest: Pubkey): Pubkey -> nat
    requires HasToken(s, dest)
  {
    k => if k == dest then Get(s, dest).data.token.withheld
         else if BearsFees(s, mint, k) then TokenAt(s, k).withheld else 0
  }

  /** Every account after a withdrawal of `total` from the listed ones. */
  ghost predicate Withdrawn(s: State, s': State, mint: Pubkey, dest: Pubkey, ks: seq<Pubkey>, total: nat)
    requires HasToken(s, dest)
  {
    var d := Get(s, dest).data.token;
    && d.amount + total <= U64_MAX
    && Get(s', dest) == Get(s, dest).(data := TokenData(d.(amount := d.amount + total,
                                                            withheld := if dest in ks then 0 else d.withheld)))
    && forall k :: k != dest ==> Get(s', k) == if k in ks && BearsFees(s, mint, k) then Taken(Get(s, k)) else Get(s, k)
  }

  /**
   Withdrawing from any list, with repetitions, foreign accounts and the destination itself: it succeeds if and only if
   the total fits and the destination, when listed, bears fees; then the destination has gained each listed account's
   withheld tokens once, those accounts have none left, and nothing else changed.
   */
  lemma {:induction false} WithdrawMeans(s: State, mint: Pubkey, dest: Pubkey, ks: seq<Pubkey>)
    requires HasToken(s, dest)
    ensures var d, total := Get(s, dest).data.token, SumOnce(ks, Withdrawal(s, mint, dest));
            && (L.WithdrawAll(s, mint, dest, ks).Ok? <==>
                  d.amount + total <= U64_MAX && (dest in ks ==> TRANSFER_FEE_AMOUNT in d.types))
            && (L.WithdrawAll(s, mint, dest, ks).Ok? ==>
                  Withdrawn(s, L.WithdrawAll(s, mint, dest, ks).value, mint, dest, ks, total))
  {
    hide L.WithdrawOne, Withdrawal, Withdrawn;
    if ks == [] {
      assert Withdrawn(s, s, mint, dest, ks, 0) by { NothingWithdrawn(s, mint, dest); }
    } else {
      var n := |ks| - 1;
      WithdrawMeans(s, mint, dest, ks[..n]);
      assert ks == ks[..n] + [ks[n]];
      if L.WithdrawAll(s, mint, dest, ks[..n]).Ok? {
        var before := L.WithdrawAll(s, mint, dest, ks[..n]).value;
        WithdrawnOnce(s, before, mint, dest, ks[..n], SumOnce(ks[..n], Withdrawal(s, mint, dest)), ks[n]);
        WithdrawOneMeans(before, mint, dest, ks[n]);
        if L.WithdrawOne(before, mint, dest, ks[n]).Ok? {
          WithdrawnNext(s, before, L.WithdrawOne(before, mint, dest, ks[n]).value, mint, dest, ks[..n],
                        SumOnce(ks[..n], Withdrawal(s, mint, dest)), ks[n]);
        }
      }
    }
  }

  lemma NothingWithdrawn(s: State, mint: Pubkey, dest: Pubkey)
    requires HasToken(s, dest)
    ensures Withdrawn(s, s, mint, dest, [], 0)
  {
  }

  /** What an account still yields after the listed ones were emptied. */
  lemma WithdrawnOnce(s: State, t: State, mint: Pubkey, dest: Pubkey, ks: seq<Pubkey>, total: nat, k: Pubkey)
    requires HasToken(s, dest) && Withdrawn(s, t, mint, dest, ks, total)
    ensures HasToken(t, dest)
    ensures Get(t, dest).data.token.amount == Get(s, dest).data.token.amount + total
    ensures Get(t, dest).data.token.types == Get(s, dest).data.token.types
    ensures Withdrawal(t, mint, dest)(k) == if k in ks then 0 else Withdrawal(s, mint, dest)(k)
  {
  }

  lemma WithdrawnNext(s: State, t: State, t': State, mint: Pubkey, dest: Pubkey, ks: seq<Pubkey>, total: nat, k: Pubkey)
    requires HasToken(s, dest) && Withdrawn(s, t, mint, dest, ks, total)
    requires HasToken(t, dest) && Withdrawn(t, t', mint, dest, [k], Withdrawal(t, mint, dest)(k))
    ensures Withdrawn(s, t', mint, dest, ks + [k], total + if k in ks then 0 else Withdrawal(s, mint, dest)(k))
  {
    hide Withdrawal;
    WithdrawnOnce(s, t, mint, dest, ks, total, k);
  }

  lemma WithdrawOneMeans(s: State, mint: Pubkey, dest: Pubkey, k: Pubkey)
    requires HasToken(s, dest)
    ensures var d, total := Get(s, dest).data.token, Withdrawal(s, mint, dest)(k);
            && (L.WithdrawOne(s, mint, dest, k).Ok? <==>
                  d.amount + total <= U64_MAX && (k == dest ==> TRANSFER_FEE_AMOUNT in d.types))
            && (L.WithdrawOne(s, mint, dest, k).Ok? ==>
                  Withdrawn(s, L.WithdrawOne(s, mint, dest, k).value, mint, dest, [k], total))
  {
  }

  // ------------------------------------------------------------------ the three instructions

  /** The authority over the withheld tokens agrees, and the destination is an account of the mint, not frozen. */
  predicate MayTakeWithheld(s: State, mint: Pubkey, dest: Pubkey, authority: Signer, signers: seq<Signer>) {
    && IsMint(s, mint) && AuthorityAt(MintAt(s, mint), AuthorityType.WithheldWithdraw).Some?
    && Agrees(s, AuthorityAt(MintAt(s, mint), AuthorityType.WithheldWithdraw).value, authority, signers)
    && HasToken(s, dest) && Get(s, dest).data.token.mint == mint && !Get(s, dest).data.token.frozen
  }

  lemma CheckIff(s: State, mint: Pubkey, dest: Pubkey, authority: Signer, signers: seq<Signer>)
    ensures L.CheckWithdrawal(s, mint, dest, authority, signers).Ok? <==> MayTakeWithheld(s, mint, dest, authority,
        signers)
    ensures L.CheckWithdrawal(s, mint, dest, authority, signers).Ok? ==>
              L.CheckWithdrawal(s, mint, dest, authority, signers).value == Get(s, dest).data.token
  {
    hide Multisigs.ValidateOwner;
  }

  /** Tokens an instruction would take out of the accounts, or out of the mint. */
  function ToTake(s: State, i: Instr): nat
    requires i.WithdrawWithheldFromMint? || i.HarvestWithheldToMint? || i.WithdrawWithheldFromAccounts?
    requires i.WithdrawWithheldFromMint? ==> HasMint(s, i.mint)
    requires i.WithdrawWithheldFromAccounts? ==> HasToken(s, i.dest)
  {
    match i
    case WithdrawWithheldFromMint(m, _, _, _) => Get(s, m).data.mint.ext.fee.withheld
    case HarvestWithheldToMint(m, ks) => SumOnce(ks, Harvest(s, m))
    case WithdrawWithheldFromAccounts(m, dest, _, _, ks) => SumOnce(ks, Withdrawal(s, m, dest))
  }

  predicate MayTake(s: State, i: Instr)
    requires i.WithdrawWithheldFromMint? || i.HarvestWithheldToMint? || i.WithdrawWithheldFromAccounts?
  {
    match i
    case WithdrawWithheldFromMint(m, dest, authority, signers) =>
      && MayTakeWithheld(s, m, dest, authority, signers)
      && Get(s, dest).data.token.amount + ToTake(s, i) <= U64_MAX
    case HarvestWithheldToMint(m, _) =>
      && HasMint(s, m) && TRANSFER_FEE_CONFIG in Get(s, m).data.mint.types
      && Get(s, m).data.mint.ext.fee.withheld + ToTake(s, i) <= U64_MAX
    case WithdrawWithheldFromAccounts(m, dest, authority, signers, ks) =>
      && MayTakeWithheld(s, m, dest, authority, signers)
      && (dest in ks ==> TRANSFER_FEE_AMOUNT in Get(s, dest).data.token.types)
      && Get(s, dest).data.token.amount + ToTake(s, i) <= U64_MAX
  }

  lemma TakeFromMintIff(s: State, ctx: Ctx, i: Instr)
    requires i.WithdrawWithheldFromMint?
    ensures Process(s, ctx, i).Ok? <==> MayTake(s, i)
  {
    hide L.CheckWithdrawal, MayTakeWithheld;
    CheckIff(s, i.mint, i.dest, i.authority, i.signers);
    TakeFinds(s, i.mint, i.dest, i.authority, i.signers);
  }

  /** Each of the three succeeds if and only if its conditions hold and the total fits. */
  lemma TakeIff(s: State, ctx: Ctx, i: Instr)
    requires i.WithdrawWithheldFromMint? || i.HarvestWithheldToMint? || i.WithdrawWithheldFromAccounts?
    ensures Process(s, ctx, i).Ok? <==> MayTake(s, i)
  {
    hide L.CheckWithdrawal, L.HarvestAll, L.WithdrawAll, MayTakeWithheld, SumOnce;
    match i
    case WithdrawWithheldFromMint(_, _, _, _) =>
      TakeFromMintIff(s, ctx, i);
    case HarvestWithheldToMint(m, ks) =>
      if HasMint(s, m) { HarvestMeans(s, m, ks); }
    case WithdrawWithheldFromAccounts(m, dest, authority, signers, ks) =>
      CheckIff(s, m, dest, authority, signers);
      TakeFinds(s, m, dest, authority, signers);
      if HasToken(s, dest) { WithdrawMeans(s, m, dest, ks); }
  }

  lemma TakeFinds(s: State, mint: Pubkey, dest: Pubkey, authority: Signer, signers: seq<Signer>)
    ensures MayTakeWithheld(s, mint, dest, authority, signers) ==> HasMint(s, mint) && HasToken(s, dest) && mint != dest
  {
  }

  /** A withdrawal from the mint: its withheld tokens become tokens of the destination, and nothing else changes. */
  lemma WithdrawFromMintLeaves(s: State, ctx: Ctx, i: Instr)
    requires i.WithdrawWithheldFromMint? && Process(s, ctx, i).Ok?
    ensures HasMint(s, i.mint) && HasToken(s, i.dest) && i.mint != i.dest
    ensures var s' := Process(s, ctx, i).value;
            var x, d := Get(s, i.mint).data.mint, Get(s, i.dest).data.token;
            && Get(s', i.mint) == Get(s, i.mint).(data := MintData(x.(ext := x.ext.(fee := x.ext.fee.(withheld := 0)))))
            && Get(s', i.dest) == Get(s, i.dest).(data := TokenData(d.(amount := d.amount + x.ext.fee.withheld)))
            && forall k :: k != i.mint && k != i.dest ==> Get(s', k) == Get(s, k)
  {
    hide L.CheckWithdrawal, MayTakeWithheld;
    CheckIff(s, i.mint, i.dest, i.authority, i.signers);
    TakeFinds(s, i.mint, i.dest, i.authority, i.signers);
  }

  /** The two that go through a list: what every account is afterwards. */
  lemma TakeLeaves(s: State, ctx: Ctx, i: Instr)
    requires (i.HarvestWithheldToMint? || i.WithdrawWithheldFromAccounts?) && Process(s, ctx, i).Ok?
    ensures i.HarvestWithheldToMint? ==>
              HasMint(s, i.mint) && Harvested(s, Process(s, ctx, i).value, i.mint, i.sources, ToTake(s, i))
    ensures i.WithdrawWithheldFromAccounts? ==>
              HasToken(s, i.dest) && Withdrawn(s, Process(s, ctx, i).value, i.mint, i.dest, i.sources, ToTake(s, i))
  {
    hide L.CheckWithdrawal, L.HarvestAll, L.WithdrawAll, MayTakeWithheld, SumOnce, Harvested, Withdrawn;
    TakeIff(s, ctx, i);
    if i.HarvestWithheldToMint? {
      HarvestMeans(s, i.mint, i.sources);
    } else {
      TakeFinds(s, i.mint, i.dest, i.authority, i.signers);
      WithdrawMeans(s, i.mint, i.dest, i.sources);
    }
  }
}
