/** Transfer-fee arithmetic (`extension/transfer_fee/mod.rs`). */
module TransferFees {
  import opened Bytes
  import opened Common

  const ONE_IN_BASIS_POINTS: nat := 10_000

  datatype TransferFee = TransferFee(epoch: u64, maximumFee: u64, basisPoints: u16)

  /** The fee schedule of a mint: the newer fee applies from its epoch on. */
  function EpochFee(older: TransferFee, newer: TransferFee, epoch: u64): TransferFee {
    if epoch >= newer.epoch then newer else older
  }

  function CeilDiv(n: nat, d: nat): nat
    requires d > 0
  {
    (n + d - 1) / d
  }

  function Min(a: nat, b: nat): nat {
    if a <= b then a else b
  }

  /** `calculate_fee`. The 128-bit product of a `u64` and a `u16` never overflows. */
  function CalculateFee(f: TransferFee, amount: u64): Option<u64> {
    if f.basisPoints == 0 || amount == 0 then Some(0)
    else
      var raw := CeilDiv(amount * f.basisPoints, ONE_IN_BASIS_POINTS);
      if raw > U64_MAX then None else Some(Min(raw, f.maximumFee))
  }

  /** `calculate_post_fee_amount` */
  function CalculatePostFeeAmount(f: TransferFee, amount: u64): Option<u64> {
    match CalculateFee(f, amount)
    case None => None
    case Some(fee) => if fee <= amount then Some(amount - fee) else None
  }

  /** `calculate_pre_fee_amount` */
  function CalculatePreFeeAmount(f: TransferFee, post: u64): Option<u64> {
    if f.basisPoints == 0 then Some(post)
    else if f.basisPoints == ONE_IN_BASIS_POINTS || post == 0 then Some(0)
    else if f.basisPoints > ONE_IN_BASIS_POINTS then None
    else
      var raw := CeilDiv(post * ONE_IN_BASIS_POINTS, ONE_IN_BASIS_POINTS - f.basisPoints);
      if raw < post then None
      else
        var gross := if raw - post >= f.maximumFee then post + f.maximumFee else raw;
        if gross > U64_MAX then None else Some(gross)
  }

  /** `calculate_inverse_fee` */
  function CalculateInverseFee(f: TransferFee, post: u64): Option<u64> {
    match CalculatePreFeeAmount(f, post)
    case None => None
    case Some(pre) => CalculateFee(f, pre)
  }

  // ------------------------------------------------------------------ what remains of an amount

  /** The larger of what the rate leaves, rounded down, and what the maximum fee leaves. */
  ghost function Net(f: TransferFee, amount: nat): int
    requires f.basisPoints <= ONE_IN_BASIS_POINTS
  {
    var byRate := amount * (ONE_IN_BASIS_POINTS - f.basisPoints) / ONE_IN_BASIS_POINTS;
    if byRate >= amount - f.maximumFee then byRate else amount - f.maximumFee
  }

  lemma CeilAndFloor(amount: nat, b: nat)
    requires b <= ONE_IN_BASIS_POINTS
    ensures CeilDiv(amount * b, ONE_IN_BASIS_POINTS)
            + amount * (ONE_IN_BASIS_POINTS - b) / ONE_IN_BASIS_POINTS == amount
  {
    var x, y := amount * b, amount * (ONE_IN_BASIS_POINTS - b);
    assert x + y == amount * ONE_IN_BASIS_POINTS by { Distribute(amount, b, ONE_IN_BASIS_POINTS - b); }
  }

  lemma Distribute(a: nat, b: nat, c: nat)
    ensures a * b + a * c == a * (b + c)
  {
  }

  /** At a valid rate the fee is always defined, never above the amount or the maximum, and leaves exactly `Net`. */
  lemma FeeMeaning(f: TransferFee, amount: u64)
    requires f.basisPoints <= ONE_IN_BASIS_POINTS
    ensures CalculateFee(f, amount).Some?
    ensures CalculateFee(f, amount).value <= amount && CalculateFee(f, amount).value <= f.maximumFee
    ensures CalculatePostFeeAmount(f, amount) == Some(Net(f, amount))
  {
    hide CeilDiv;
    CeilAndFloor(amount, f.basisPoints);
    var k := ONE_IN_BASIS_POINTS - f.basisPoints;
    ScaledBounds(amount, k);
    if f.basisPoints == 0 || amount == 0 {
      WholeKept(f, amount);
    }
  }

  lemma ScaledBounds(amount: nat, k: nat)
    requires k <= ONE_IN_BASIS_POINTS
    ensures 0 <= amount * k / ONE_IN_BASIS_POINTS <= amount
  {
    MulMono2(amount, k, ONE_IN_BASIS_POINTS);
  }

  lemma WholeKept(f: TransferFee, amount: nat)
    requires f.basisPoints == 0 || amount == 0
    ensures f.basisPoints <= ONE_IN_BASIS_POINTS ==> Net(f, amount) == amount
  {
  }

  /** The quantity `raw` of the inversion: the least amount from which the rate alone leaves `post`. */
  lemma LeastByRate(post: nat, k: nat, q: nat)
    requires 0 < k <= ONE_IN_BASIS_POINTS
    ensures var raw := CeilDiv(post * ONE_IN_BASIS_POINTS, k);
            && raw >= post && raw * k / ONE_IN_BASIS_POINTS == post
            && (q < raw <==> q * k / ONE_IN_BASIS_POINTS < post)
  {
    var n := post * ONE_IN_BASIS_POINTS;
    var raw := CeilDiv(n, k);
    CeilBounds(n, k);
    assert n <= raw * k < n + k;
    MulMono2(post, k, ONE_IN_BASIS_POINTS);
    Cancel(raw, post, k);
    if q < raw {
      MulMono(q, raw - 1, k);
      assert (raw - 1) * k == raw * k - k;
    } else {
      MulMono(raw, q, k);
    }
  }

  lemma CeilBounds(n: nat, k: nat)
    requires k > 0
    ensures n <= CeilDiv(n, k) * k < n + k
  {
    var m := n + k - 1;
    assert m == m / k * k + m % k;
  }

  lemma MulMono(a: nat, b: nat, k: nat)
    requires a <= b
    ensures a * k <= b * k
  {
  }

  lemma Cancel(a: nat, b: nat, k: nat)
    requires k > 0 && a * k >= b * k
    ensures a >= b
  {
  }

  lemma MulMono2(a: nat, k: nat, l: nat)
    requires k <= l
    ensures a * k <= a * l
  {
  }

  /** The gross amount computed by the inversion before it is checked to fit, for a rate strictly between 0 and 1. */
  ghost function Gross(f: TransferFee, post: nat): nat
    requires f.basisPoints < ONE_IN_BASIS_POINTS
  {
    var raw := CeilDiv(post * ONE_IN_BASIS_POINTS, ONE_IN_BASIS_POINTS - f.basisPoints);
    if raw - post >= f.maximumFee then post + f.maximumFee else raw
  }

  lemma GrossIsLeast(f: TransferFee, post: nat, q: nat)
    requires f.basisPoints < ONE_IN_BASIS_POINTS
    ensures Net(f, Gross(f, post)) == post
    ensures q < Gross(f, post) ==> Net(f, q) < post
  {
    var k := ONE_IN_BASIS_POINTS - f.basisPoints;
    var raw := CeilDiv(post * ONE_IN_BASIS_POINTS, k);
    LeastByRate(post, k, q);
    if raw - post >= f.maximumFee {
      LeastByRate(post, k, post + f.maximumFee);
    }
  }

  /**
   Below a rate of 100% the inversion is exact: it returns the least amount that leaves `post` after the fee, and
   nothing only when no 64-bit amount leaves that much.
   */
  lemma PreFeeIsLeast(f: TransferFee, post: u64)
    requires f.basisPoints < ONE_IN_BASIS_POINTS
    ensures match CalculatePreFeeAmount(f, post)
            case Some(p) => CalculatePostFeeAmount(f, p) == Some(post) && forall q: u64 :: q < p ==> Net(f, q) < post
            case None => forall q: u64 :: Net(f, q) < post
  {
    hide CalculatePostFeeAmount, CeilDiv, Net;
    GrossIsLeast(f, post, 0);
    GrossAtEnds(f, post);
    forall q: u64 | q < Gross(f, post)
      ensures Net(f, q) < post
    {
      GrossIsLeast(f, post, q);
    }
    if Gross(f, post) <= U64_MAX {
      FeeMeaning(f, Gross(f, post));
    }
  }

  lemma GrossAtEnds(f: TransferFee, post: u64)
    requires f.basisPoints < ONE_IN_BASIS_POINTS
    ensures CalculatePreFeeAmount(f, post) == if Gross(f, post) <= U64_MAX then Some(Gross(f, post)) else None
  {
    var k := ONE_IN_BASIS_POINTS - f.basisPoints;
    LeastByRate(post, k, 0);
    if post == 0 {
      assert CeilDiv(0, k) == 0 by { CeilBounds(0, k); }
    }
  }

  /** With a valid rate, the inversion is exact if and only if the rate is below 100% or `post` is zero. */
  lemma PreFeeExactIff(f: TransferFee, post: u64)
    requires f.basisPoints <= ONE_IN_BASIS_POINTS
    ensures CalculatePreFeeAmount(f, post).Some? ==>
              (CalculatePostFeeAmount(f, CalculatePreFeeAmount(f, post).value) == Some(post)
               <==> f.basisPoints < ONE_IN_BASIS_POINTS || post == 0)
    ensures f.maximumFee + post <= U64_MAX ==> CalculatePreFeeAmount(f, post).Some?
  {
    if f.basisPoints < ONE_IN_BASIS_POINTS {
      PreFeeIsLeast(f, post);
      GrossAtEnds(f, post);
    }
  }

  /** At a rate of 100% with a maximum fee of 5, 15 leaves 10; the inversion of 10 returns 0, which leaves 0. */
  lemma PreFeeLostAtFullRate()
    ensures var f := TransferFee(0, 5, 10_000);
            && CalculatePostFeeAmount(f, 15) == Some(10)
            && CalculatePreFeeAmount(f, 10) == Some(0) && CalculatePostFeeAmount(f, 0) == Some(0)
  {
    var f := TransferFee(0, 5, 10_000);
    assert CeilDiv(15 * 10_000, ONE_IN_BASIS_POINTS) == 15;
  }

  /**
   Charging a fee and inverting it: the fee found from what is left is never more than the fee charged, and falls
   short of it by less than one unit per unit of the rate that is kept.
   */
  lemma InverseFeeClose(f: TransferFee, amount: u64)
    requires f.basisPoints < ONE_IN_BASIS_POINTS
    ensures var fee, post := CalculateFee(f, amount), CalculatePostFeeAmount(f, amount);
            && fee.Some? && post.Some?
            && var back := CalculateInverseFee(f, post.value);
               && back.Some? && back.value <= fee.value
               && (fee.value - back.value) * (ONE_IN_BASIS_POINTS - f.basisPoints) < ONE_IN_BASIS_POINTS
  {
    hide CeilDiv;
    FeeMeaning(f, amount);
    var post := CalculatePostFeeAmount(f, amount).value;
    GrossIsLeast(f, post, amount);
    GrossAtEnds(f, post);
    var p := Gross(f, post);
    FeeMeaning(f, p);
    GapIsSmall(f, post, amount);
  }

  lemma GapIsSmall(f: TransferFee, post: nat, amount: nat)
    requires f.basisPoints < ONE_IN_BASIS_POINTS && Net(f, amount) == post && Gross(f, post) <= amount
    ensures (amount - Gross(f, post)) * (ONE_IN_BASIS_POINTS - f.basisPoints) < ONE_IN_BASIS_POINTS
  {
    var k := ONE_IN_BASIS_POINTS - f.basisPoints;
    var raw := CeilDiv(post * ONE_IN_BASIS_POINTS, k);
    CeilBounds(post * ONE_IN_BASIS_POINTS, k);
    if raw - post >= f.maximumFee {
      assert amount <= post + f.maximumFee;
      assert (amount - Gross(f, post)) == 0;
    } else {
      assert amount * k / ONE_IN_BASIS_POINTS <= post;
      assert (amount - raw) * k == amount * k - raw * k;
    }
  }
}
