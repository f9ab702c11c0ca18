/** Sums over all accounts of a state, and what changing one account does to them. */
module LedgerSums {
  import opened Common
  import opened ExtensionTypes
  import opened LedgerState

  type Weight = Info -> nat

  ghost function Sum(s: State, w: Weight): nat
    decreases |s|
  {
    if s == map[] then 0
    else
      var k :| k in s;
      w(s[k]) + Sum(s - {k}, w)
  }

  /** The choice of the first account does not matter. */
  lemma {:induction false} SumTake(s: State, w: Weight, k: Pubkey)
    requires k in s
    ensures Sum(s, w) == w(s[k]) + Sum(s - {k}, w)
    decreases |s|
  {
    var k' :| k' in s && Sum(s, w) == w(s[k']) + Sum(s - {k'}, w);
    if k' != k {
      SumTake(s - {k'}, w, k);
      SumTake(s - {k}, w, k');
      assert s - {k'} - {k} == s - {k} - {k'};
    }
  }

  /** Replacing one account moves the sum by the difference of the two weights. */
  lemma SumUpdate(s: State, w: Weight, k: Pubkey, i: Info)
    requires w(ABSENT) == 0
    ensures Sum(s[k := i], w) == Sum(s, w) - w(Get(s, k)) + w(i)
    ensures w(Get(s, k)) <= Sum(s, w)
  {
    var s' := s[k := i];
    SumTake(s', w, k);
    if k in s {
      SumTake(s, w, k);
      assert s' - {k} == s - {k};
    } else {
      assert s' - {k} == s;
    }
  }

  lemma SumPairAtMost(s: State, w: Weight, j: Pubkey, k: Pubkey)
    requires w(ABSENT) == 0 && j != k
    ensures w(Get(s, j)) + w(Get(s, k)) <= Sum(s, w)
  {
    if j in s {
      SumTake(s, w, j);
      assert Get(s - {j}, k) == Get(s, k);
      SumUpdate(s - {j}, w, k, ABSENT);
    } else {
      SumUpdate(s, w, k, ABSENT);
    }
  }

  lemma {:induction false} SumZero(s: State, w: Weight)
    requires forall k :: k in s ==> w(s[k]) == 0
    ensures Sum(s, w) == 0
    decreases |s|
  {
    if s != map[] {
      var k :| k in s;
      SumTake(s, w, k);
      SumZero(s - {k}, w);
    }
  }

  /** Accounts of equal weight sum to the same. */
  lemma {:induction false} SumSame(s: State, s': State, w: Weight)
    requires w(ABSENT) == 0 && s.Keys <= s'.Keys
    requires forall k :: k in s' ==> w(Get(s, k)) == w(s'[k])
    ensures Sum(s, w) == Sum(s', w)
    decreases |s'|
  {
    if s' == map[] {
      assert s == map[];
    } else {
      var k :| k in s';
      SumTake(s', w, k);
      if k in s { SumTake(s, w, k); }
      var t, t' := s - {k}, s' - {k};
      assert k !in s ==> t == s;
      assert forall j :: j in t' ==> Get(t, j) == Get(s, j);
      SumSame(t, t', w);
    }
  }

  // ------------------------------------------------------------------ what is summed

  /** Tokens of mint `m` in an account: its balance and the fees withheld in it. */
  function Holding(i: Info, m: Pubkey): nat {
    if i.owner == TOKEN_PROGRAM && i.data.TokenData? && i.data.token.mint == m
    then i.data.token.amount + i.data.token.Withheld() else 0
  }

  function HoldingOf(m: Pubkey): Weight {
    i => Holding(i, m)
  }

  function Lamports(): Weight {
    (i: Info) => i.lamports
  }

  function MintWithheld(i: Info): nat {
    if i.owner == TOKEN_PROGRAM && i.data.MintData? && TRANSFER_FEE_CONFIG in i.data.mint.types
    then i.data.mint.ext.fee.withheld else 0
  }

  function Supply(i: Info): nat {
    if i.owner == TOKEN_PROGRAM && i.data.MintData? then i.data.mint.supply else 0
  }

  /** Everything held in accounts of the mint. */
  ghost function Held(s: State, m: Pubkey): nat {
    Sum(s, HoldingOf(m))
  }

  /**
   The supply of a mint is what its accounts hold, with the withheld fees kept in the accounts and in the mint.
   A key that is no mint has no supply, and then its accounts hold nothing.
   */
  ghost predicate Balanced(s: State, m: Pubkey) {
    Held(s, m) + MintWithheld(Get(s, m)) == Supply(Get(s, m))
  }

  /** One changed account. */
  lemma HeldUpdate(s: State, m: Pubkey, k: Pubkey, i: Info)
    ensures Held(s[k := i], m) == Held(s, m) - Holding(Get(s, k), m) + Holding(i, m)
    ensures Holding(Get(s, k), m) <= Held(s, m)
  {
    SumUpdate(s, HoldingOf(m), k, i);
  }

  lemma HeldPair(s: State, m: Pubkey, j: Pubkey, k: Pubkey)
    requires j != k
    ensures Holding(Get(s, j), m) + Holding(Get(s, k), m) <= Held(s, m)
  {
    SumPairAtMost(s, HoldingOf(m), j, k);
  }

  /** A change that moves neither tokens nor supply keeps every balance. */
  lemma QuietUpdate(s: State, m: Pubkey, k: Pubkey, i: Info)
    requires Balanced(s, m) && Holding(i, m) == Holding(Get(s, k), m)
    requires k == m ==> Supply(i) == Supply(Get(s, k)) && MintWithheld(i) == MintWithheld(Get(s, k))
    ensures Balanced(s[k := i], m)
  {
    HeldUpdate(s, m, k, i);
  }
}
