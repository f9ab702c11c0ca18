/** Authority checks: `validate_owner`, and exactly when a multisig authorises. */
module Multisigs {
  import opened Bytes
  import opened Common
  import opened ExtensionTypes
  import opened LedgerState

  predicate Listed(signers: seq<Signer>, key: Pubkey) {
    exists i :: 0 <= i < |signers| && signers[i].key == key
  }

  /** The first entry with the key is a signer. */
  predicate FirstSigned(signers: seq<Signer>, key: Pubkey) {
    if signers == [] then false
    else if signers[0].key == key then signers[0].isSigner
    else FirstSigned(signers[1..], key)
  }

  /** Positions whose key is listed. */
  function CountListed(keys: seq<Pubkey>, signers: seq<Signer>): (c: nat)
    ensures c <= |keys|
  {
    if keys == [] then 0
    else CountListed(keys[..|keys| - 1], signers) + if Listed(signers, keys[|keys| - 1]) then 1 else 0
  }

  /**
   A multisig authorises when, among its first `n` positions, every listed key was first listed as a signer, and
   at least `m` positions hold a listed key. Positions are counted, not keys.
   */
  predicate Authorizes(x: Multisig, signers: seq<Signer>)
    requires x.n <= |x.signers|
  {
    var keys := x.signers[..x.n];
    && (forall p :: 0 <= p < |keys| && Listed(signers, keys[p]) ==> FirstSigned(signers, keys[p]))
    && CountListed(keys, signers) >= x.m
  }

  function MultisigOf(i: Info): Multisig {
    if i.data.MultisigData? then i.data.multisig else Multisig(0, 0, seq(MAX_SIGNERS, _ => 0))
  }

  /** `validate_owner` */
  function ValidateOwner(s: State, expected: Pubkey, authority: Signer, signers: seq<Signer>): Result<()> {
    var i := Get(s, authority.key);
    if expected != authority.key then Err(OwnerMismatch)
    else if i.owner == TOKEN_PROGRAM && i.dataLen == MULTISIG_LEN then
      var x := MultisigOf(i);
      if x.n > |x.signers| then Err(Panic)
      else if Authorizes(x, signers) then Ok(()) else Err(MissingRequiredSignature)
    else if authority.isSigner then Ok(()) else Err(MissingRequiredSignature)
  }

  // ------------------------------------------------------------------ the loops

  function CountTrue(b: seq<bool>): (c: nat)
    ensures c <= |b|
  {
    if b == [] then 0 else CountTrue(b[..|b| - 1]) + if b[|b| - 1] then 1 else 0
  }

  lemma {:induction false} CountTrueSet(b: seq<bool>, p: nat)
    requires p < |b| && !b[p]
    ensures CountTrue(b[p := true]) == CountTrue(b) + 1
  {
    var n := |b| - 1;
    if p < n {
      CountTrueSet(b[..n], p);
      assert b[p := true][..n] == b[..n][p := true];
    } else {
      assert b[p := true][..n] == b[..n];
    }
  }

  lemma {:induction false} CountsEqual(keys: seq<Pubkey>, signers: seq<Signer>, matched: seq<bool>)
    requires |matched| == |keys| && forall p :: 0 <= p < |keys| ==> (matched[p] <==> Listed(signers, keys[p]))
    ensures CountTrue(matched) == CountListed(keys, signers)
  {
    if keys != [] {
      CountsEqual(keys[..|keys| - 1], signers, matched[..|keys| - 1]);
    }
  }

  /** Listing one more signer. */
  lemma {:induction false} OneMoreSigner(signers: seq<Signer>, i: nat, key: Pubkey)
    requires i < |signers|
    ensures signers[..i] + [signers[i]] == signers[..i + 1]
    ensures Listed(signers[..i + 1], key) <==> Listed(signers[..i], key) || signers[i].key == key
    ensures Listed(signers[..i], key) ==> FirstSigned(signers[..i + 1], key) == FirstSigned(signers[..i], key)
    ensures !Listed(signers[..i], key) && signers[i].key == key ==>
        FirstSigned(signers[..i + 1], key) == signers[i].isSigner
    decreases i
  {
    var a, b := signers[..i], signers[..i + 1];
    assert b == a + [signers[i]];
    assert b[i] == signers[i];
    if Listed(a, key) {
      var j :| 0 <= j < |a| && a[j].key == key;
      assert b[j].key == key;
    }
    if i > 0 {
      OneMoreSigner(signers[1..], i - 1, key);
      DropTake(signers, i);
      DropTake(signers, i + 1);
      assert Listed(a, key) <==> a[0].key == key || Listed(a[1..], key) by {
        ListedFront(a, key);
      }
    }
  }

  lemma DropTake<T>(s: seq<T>, i: nat)
    requires 1 <= i <= |s|
    ensures s[1..][..i - 1] == s[..i][1..]
  {
  }

  lemma ListedFront(a: seq<Signer>, key: Pubkey)
    requires a != []
    ensures Listed(a, key) <==> a[0].key == key || Listed(a[1..], key)
  {
    if Listed(a, key) {
      var j :| 0 <= j < |a| && a[j].key == key;
      if j > 0 { assert a[1..][j - 1].key == key; }
    }
    if Listed(a[1..], key) {
      var j :| 0 <= j < |a[1..]| && a[1..][j].key == key;
      assert a[j + 1].key == key;
    }
  }

  lemma {:induction false} FirstSignedKept(signers: seq<Signer>, i: nat, key: Pubkey)
    requires i <= |signers| && Listed(signers[..i], key)
    ensures Listed(signers, key) && FirstSigned(signers, key) == FirstSigned(signers[..i], key)
    decreases |signers| - i
  {
    if i == |signers| {
      assert signers[..i] == signers;
    } else {
      OneMoreSigner(signers, i, key);
      FirstSignedKept(signers, i + 1, key);
    }
  }

  /** The two nested loops over signers and positions, with the `matched` flags and the counter. */
  method CheckMultisig(x: Multisig, signers: seq<Signer>) returns (r: Result<()>)
    requires x.n <= |x.signers|
    ensures r == if Authorizes(x, signers) then Ok(()) else Err(MissingRequiredSignature)
  {
    hide FirstSigned, CountListed, CountTrue, Listed;
    var keys := x.signers[..x.n];
    assert forall p :: 0 <= p < |keys| ==> !Listed(signers[..0], keys[p]) by { NoneListed(keys); }
    var matched := new bool[|keys|](_ => false);
    var numSigners := 0;
    assert CountTrue(matched[..]) == 0 by { NoneTrue(matched[..]); }
    for i := 0 to |signers|
      invariant forall p :: 0 <= p < |keys| ==> (matched[p] <==> Listed(signers[..i], keys[p]))
      invariant forall p :: 0 <= p < |keys| && matched[p] ==> FirstSigned(signers[..i], keys[p])
      invariant numSigners == CountTrue(matched[..])
    {
      for p := 0 to |keys|
        invariant forall q :: 0 <= q < p ==> (matched[q] <==> Listed(signers[..i + 1], keys[q]))
        invariant forall q :: 0 <= q < p && matched[q] ==> FirstSigned(signers[..i + 1], keys[q])
        invariant forall q :: p <= q < |keys| ==> (matched[q] <==> Listed(signers[..i], keys[q]))
        invariant forall q :: p <= q < |keys| && matched[q] ==> FirstSigned(signers[..i], keys[q])
        invariant numSigners == CountTrue(matched[..])
      {
        OneMoreSigner(signers, i, keys[p]);
        if keys[p] == signers[i].key && !matched[p] {
          if !signers[i].isSigner {
            FirstSignedKept(signers, i + 1, keys[p]);
            return Err(MissingRequiredSignature);
          }
          CountTrueSet(matched[..], p);
          ghost var before := matched[..];
          matched[p] := true;
          assert matched[..] == before[p := true];
          numSigners := numSigners + 1;
        }
      }
    }
    assert signers[..|signers|] == signers;
    CountsEqual(keys, signers, matched[..]);
    if numSigners < x.m {
      return Err(MissingRequiredSignature);
    }
    r := Ok(());
  }

  lemma NoneListed(keys: seq<Pubkey>)
    ensures forall p :: 0 <= p < |keys| ==> !Listed([], keys[p])
  {
  }

  lemma {:induction false} NoneTrue(b: seq<bool>)
    requires forall p :: 0 <= p < |b| ==> !b[p]
    ensures CountTrue(b) == 0
  {
    if b != [] { NoneTrue(b[..|b| - 1]); }
  }

  // ------------------------------------------------------------------ consequences

  /** A threshold above the number of positions is never met, and the counter never exceeds that number. */
  lemma ThresholdAboveNeverMet(x: Multisig, signers: seq<Signer>)
    requires x.n <= |x.signers|
    ensures CountListed(x.signers[..x.n], signers) <= x.n
    ensures x.m > x.n ==> !Authorizes(x, signers)
  {
  }

  /** Some entry with the key really signed. */
  predicate HasSigned(signers: seq<Signer>, key: Pubkey) {
    exists i :: 0 <= i < |signers| && signers[i].key == key && signers[i].isSigner
  }

  /** Positions whose key really signed. */
  function CountSigned(keys: seq<Pubkey>, signers: seq<Signer>): (c: nat)
    ensures c <= |keys|
  {
    if keys == [] then 0
    else CountSigned(keys[..|keys| - 1], signers) + if HasSigned(signers, keys[|keys| - 1]) then 1 else 0
  }

  /** An authorised multisig has real signatures for at least `m` of its positions. */
  lemma AuthorizedIsSigned(x: Multisig, signers: seq<Signer>)
    requires x.n <= |x.signers| && Authorizes(x, signers)
    ensures CountSigned(x.signers[..x.n], signers) >= x.m
  {
    ListedAreSigned(x.signers[..x.n], signers);
  }

  lemma {:induction false} ListedAreSigned(keys: seq<Pubkey>, signers: seq<Signer>)
    requires forall p :: 0 <= p < |keys| && Listed(signers, keys[p]) ==> FirstSigned(signers, keys[p])
    ensures CountSigned(keys, signers) >= CountListed(keys, signers)
  {
    if keys != [] {
      var n := |keys| - 1;
      ListedAreSigned(keys[..n], signers);
      if Listed(signers, keys[n]) {
        var i := FirstSignedWitness(signers, keys[n]);
      }
    }
  }

  lemma {:induction false} NobodySigned(keys: seq<Pubkey>, signers: seq<Signer>)
    requires forall i :: 0 <= i < |signers| ==> !signers[i].isSigner
    ensures CountSigned(keys, signers) == 0
  {
    if keys != [] { NobodySigned(keys[..|keys| - 1], signers); }
  }

  lemma {:induction false} FirstSignedWitness(signers: seq<Signer>, key: Pubkey) returns (i: nat)
    requires FirstSigned(signers, key)
    ensures i < |signers| && signers[i].key == key && signers[i].isSigner
  {
    if signers[0].key == key {
      i := 0;
    } else {
      i := FirstSignedWitness(signers[1..], key);
      i := i + 1;
    }
  }
}
