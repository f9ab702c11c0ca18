/** Bytes, machine integers and their little-endian encodings. */
module Bytes {
  type byte = x: int | 0 <= x < 256
  type u8 = byte
  type u16 = x: int | 0 <= x < 0x1_0000
  type u64 = x: int | 0 <= x < 0x1_0000_0000_0000_0000

  const U16_MAX: int := 0xFFFF
  const U64_MAX: int := 0xFFFF_FFFF_FFFF_FFFF

  function Zeros(n: nat): (z: seq<byte>)
    ensures |z| == n && forall i :: 0 <= i < n ==> z[i] == 0
  {
    seq(n, _ => 0)
  }

  predicate AllZero(b: seq<byte>) {
    forall i :: 0 <= i < |b| ==> b[i] == 0
  }

  function Le16(n: u16): (b: seq<byte>)
    ensures |b| == 2
  {
    [n % 256, n / 256]
  }

  function FromLe16(b: seq<byte>): u16
    requires |b| == 2
  {
    b[0] as int + 256 * (b[1] as int)
  }

  lemma Le16RoundTrip(n: u16, b: seq<byte>)
    requires |b| == 2
    ensures FromLe16(Le16(n)) == n
    ensures Le16(FromLe16(b)) == b
  {
  }

  function Pow256(k: nat): (p: nat)
    ensures p > 0
  {
    if k == 0 then 1 else 256 * Pow256(k - 1)
  }

  /** `to_le_bytes` of a k-byte integer. */
  function ToLe(n: nat, k: nat): (b: seq<byte>)
    ensures |b| == k
    decreases k
  {
    if k == 0 then [] else [n % 256] + ToLe(n / 256, k - 1)
  }

  /** `from_le_bytes`. */
  function FromLe(b: seq<byte>): nat {
    if b == [] then 0 else b[0] + 256 * FromLe(b[1..])
  }

  lemma {:induction false} FromToLe(n: nat, k: nat)
    requires n < Pow256(k)
    ensures FromLe(ToLe(n, k)) == n
    decreases k
  {
    if k > 0 {
      FromToLe(n / 256, k - 1);
      assert ToLe(n, k)[1..] == ToLe(n / 256, k - 1);
    }
  }

  lemma {:induction false} ToFromLe(b: seq<byte>)
    ensures FromLe(b) < Pow256(|b|)
    ensures ToLe(FromLe(b), |b|) == b
  {
    if b != [] {
      ToFromLe(b[1..]);
      assert FromLe(b) / 256 == FromLe(b[1..]) && FromLe(b) % 256 == b[0];
    }
  }

  function Le64(n: u64): (b: seq<byte>)
    ensures |b| == 8
  {
    ToLe(n, 8)
  }

  function FromLe64(b: seq<byte>): u64
    requires |b| == 8
  {
    ToFromLe(b);
    Pow256Eight();
    FromLe(b)
  }

  lemma Pow256Eight()
    ensures Pow256(8) == 0x1_0000_0000_0000_0000
  {
    assert Pow256(4) == 0x1_0000_0000;
  }

  lemma Le64RoundTrip(n: u64, b: seq<byte>)
    requires |b| == 8
    ensures FromLe64(Le64(n)) == n
    ensures Le64(FromLe64(b)) == b
  {
    Pow256Eight();
    FromToLe(n, 8);
    ToFromLe(b);
  }
}
