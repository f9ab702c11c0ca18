/**
 The base states: `Mint`, `Account` and `Multisig` with their packed layouts (`state.rs`), and the zero-copy
 view of the same bytes (`pod.rs`).
 */
module BaseState {
  import opened Bytes
  import opened Common
  import opened ExtensionTypes
  import opened TlvOps
  import opened TlvAccount

  type Key = k: seq<byte> | |k| == 32 witness Zeros(32)

  const ZERO_KEY: Key := Zeros(32)
  const NONE_TAG: seq<byte> := [0, 0, 0, 0]
  const SOME_TAG: seq<byte> := [1, 0, 0, 0]
  const MAX_SIGNERS: nat := 11

  datatype MintState = MintState(mintAuthority: Option<Key>, supply: u64, decimals: u8, isInitialized: bool,
                                 freezeAuthority: Option<Key>)

  datatype AccountState = StateUninitialized | StateInitialized | StateFrozen

  datatype TokenState = TokenState(mint: Key, owner: Key, amount: u64, delegate: Option<Key>, state: AccountState,
                                   isNative: Option<u64>, delegatedAmount: u64, closeAuthority: Option<Key>)

  type Signers = s: seq<Key> | |s| == 11 witness seq<Key>(11, _ => ZERO_KEY)

  datatype MultisigState = MultisigState(m: u8, n: u8, isInitialized: bool, signers: Signers)

  // ------------------------------------------------------------------ options

  /** `pack_coption_key` and `pack_coption_u64`: `None` clears the tag and leaves the body as it was. */
  function PackOption(o: Option<seq<byte>>, dst: seq<byte>): (b: seq<byte>)
    requires |dst| >= 4 && (o.Some? ==> |o.value| == |dst| - 4)
    ensures |b| == |dst|
  {
    match o case Some(v) => SOME_TAG + v case None => NONE_TAG + dst[4..]
  }

  /** `unpack_coption_key` and `unpack_coption_u64` before the body is interpreted. */
  function UnpackOption(src: seq<byte>): (r: Result<Option<seq<byte>>>)
    requires |src| >= 4
    ensures r.Ok? && r.value.Some? ==> |r.value.value| == |src| - 4
  {
    if src[..4] == NONE_TAG then Ok(None)
    else if src[..4] == SOME_TAG then Ok(Some(src[4..]))
    else Err(InvalidAccountData)
  }

  lemma UnpackPackedOption(o: Option<seq<byte>>, dst: seq<byte>)
    requires |dst| >= 4 && (o.Some? ==> |o.value| == |dst| - 4)
    ensures UnpackOption(PackOption(o, dst)) == Ok(o)
  {
    var b := PackOption(o, dst);
    if o.Some? {
      assert b[..4] == SOME_TAG && b[4..] == o.value;
    } else {
      assert b[..4] == NONE_TAG;
    }
  }

  lemma PackUnpackedOption(b: seq<byte>)
    requires |b| >= 4 && UnpackOption(b).Ok?
    ensures PackOption(UnpackOption(b).value, b) == b
  {
    assert b == b[..4] + b[4..];
  }

  function KeyOf(o: Option<seq<byte>>): Option<Key>
    requires o.Some? ==> |o.value| == 32
  {
    match o case Some(v) => Some(v) case None => None
  }

  function AmountBytes(o: Option<u64>): (r: Option<seq<byte>>)
    ensures r.Some? ==> |r.value| == 8
  {
    match o case Some(v) => Some(Le64(v)) case None => None
  }

  function AmountOf(o: Option<seq<byte>>): Option<u64>
    requires o.Some? ==> |o.value| == 8
  {
    match o case Some(v) => Some(FromLe64(v)) case None => None
  }

  function BoolOf(b: byte): Result<bool> {
    if b == 0 then Ok(false) else if b == 1 then Ok(true) else Err(InvalidAccountData)
  }

  function BoolByte(b: bool): byte {
    if b then 1 else 0
  }

  function StateOf(b: byte): Result<AccountState> {
    if b == 0 then Ok(StateUninitialized) else if b == 1 then Ok(StateInitialized)
    else if b == 2 then Ok(StateFrozen) else Err(InvalidAccountData)
  }

  function StateByte(s: AccountState): byte {
    match s case StateUninitialized => 0 case StateInitialized => 1 case StateFrozen => 2
  }

  // ------------------------------------------------------------------ mint

  function PackMint(x: MintState, dst: seq<byte>): (b: seq<byte>)
    requires |dst| == MINT_LEN
    ensures |b| == MINT_LEN
  {
    PackOption(x.mintAuthority, dst[..36]) + Le64(x.supply) + [x.decimals] + [BoolByte(x.isInitialized)]
    + PackOption(x.freezeAuthority, dst[46..])
  }

  function UnpackMint(b: seq<byte>): Result<MintState>
    requires |b| == MINT_LEN
  {
    var mintAuthority :- UnpackOption(b[..36]);
    var isInitialized :- BoolOf(b[45]);
    var freezeAuthority :- UnpackOption(b[46..]);
    Ok(MintState(KeyOf(mintAuthority), FromLe64(b[36..44]), b[44], isInitialized, KeyOf(freezeAuthority)))
  }

  /** Unpacking gives back what was packed, whatever the destination held before. */
  lemma MintRoundTrip(x: MintState, dst: seq<byte>)
    requires |dst| == MINT_LEN
    ensures UnpackMint(PackMint(x, dst)) == Ok(x)
  {
    hide PackOption, UnpackOption, Le64, FromLe64;
    var b := PackMint(x, dst);
    var p, q := PackOption(x.mintAuthority, dst[..36]), PackOption(x.freezeAuthority, dst[46..]);
    assert b[..36] == p && b[36..44] == Le64(x.supply) && b[46..] == q;
    UnpackPackedOption(x.mintAuthority, dst[..36]);
    UnpackPackedOption(x.freezeAuthority, dst[46..]);
    Le64RoundTrip(x.supply, p[..8]);
  }

  /** Where each field of a mint is stored. */
  lemma MintFields(x: MintState, dst: seq<byte>)
    requires |dst| == MINT_LEN
    ensures var b := PackMint(x, dst);
            && b[..36] == PackOption(x.mintAuthority, dst[..36]) && b[36..44] == Le64(x.supply)
            && b[44] == x.decimals && b[45] == BoolByte(x.isInitialized)
            && b[46..] == PackOption(x.freezeAuthority, dst[46..])
  {
    hide PackOption, Le64;
  }

  /** Packing what was unpacked, into the bytes it came from, changes nothing (`pack_base` after a read). */
  lemma MintRepack(b: seq<byte>)
    requires |b| == MINT_LEN && UnpackMint(b).Ok?
    ensures PackMint(UnpackMint(b).value, b) == b
  {
    hide PackOption, UnpackOption, Le64, FromLe64;
    PackUnpackedOption(b[..36]);
    PackUnpackedOption(b[46..]);
    Le64RoundTrip(0, b[36..44]);
    assert b == b[..36] + b[36..44] + [b[44]] + [b[45]] + b[46..];
  }

  // ------------------------------------------------------------------ token account

  function PackToken(x: TokenState, dst: seq<byte>): (b: seq<byte>)
    requires |dst| == ACCOUNT_LEN
    ensures |b| == ACCOUNT_LEN
  {
    x.mint + x.owner + Le64(x.amount) + PackOption(x.delegate, dst[72..108]) + [StateByte(x.state)]
    + PackOption(AmountBytes(x.isNative), dst[109..121]) + Le64(x.delegatedAmount)
    + PackOption(x.closeAuthority, dst[129..])
  }

  function UnpackToken(b: seq<byte>): Result<TokenState>
    requires |b| == ACCOUNT_LEN
  {
    var delegate :- UnpackOption(b[72..108]);
    var state :- StateOf(b[108]);
    var isNative :- UnpackOption(b[109..121]);
    var closeAuthority :- UnpackOption(b[129..]);
    Ok(TokenState(b[..32], b[32..64], FromLe64(b[64..72]), KeyOf(delegate), state, AmountOf(isNative),
                  FromLe64(b[121..129]), KeyOf(closeAuthority)))
  }

  lemma TokenFields(x: TokenState, dst: seq<byte>)
    requires |dst| == ACCOUNT_LEN
    ensures var b := PackToken(x, dst);
            && b[..32] == x.mint && b[32..64] == x.owner && b[64..72] == Le64(x.amount)
            && b[72..108] == PackOption(x.delegate, dst[72..108]) && b[108] == StateByte(x.state)
            && b[109..121] == PackOption(AmountBytes(x.isNative), dst[109..121])
            && b[121..129] == Le64(x.delegatedAmount) && b[129..] == PackOption(x.closeAuthority, dst[129..])
  {
    hide PackOption, Le64;
  }

  lemma TokenRoundTrip(x: TokenState, dst: seq<byte>)
    requires |dst| == ACCOUNT_LEN
    ensures UnpackToken(PackToken(x, dst)) == Ok(x)
  {
    hide PackToken, PackOption, UnpackOption, Le64, FromLe64;
    TokenFields(x, dst);
    UnpackPackedOption(x.delegate, dst[72..108]);
    UnpackPackedOption(AmountBytes(x.isNative), dst[109..121]);
    UnpackPackedOption(x.closeAuthority, dst[129..]);
    Le64RoundTrip(x.amount, dst[..8]);
    Le64RoundTrip(x.delegatedAmount, dst[..8]);
    if x.isNative.Some? { Le64RoundTrip(x.isNative.value, dst[..8]); }
  }

  lemma TokenRepack(b: seq<byte>)
    requires |b| == ACCOUNT_LEN && UnpackToken(b).Ok?
    ensures PackToken(UnpackToken(b).value, b) == b
  {
    hide PackOption, UnpackOption, Le64, FromLe64;
    PackUnpackedOption(b[72..108]);
    PackUnpackedOption(b[109..121]);
    PackUnpackedOption(b[129..]);
    Le64RoundTrip(0, b[64..72]);
    Le64RoundTrip(0, b[121..129]);
    NativeRepack(b[109..121]);
    assert b == b[..32] + b[32..64] + b[64..72] + b[72..108] + [b[108]] + b[109..121] + b[121..129] + b[129..];
  }

  lemma NativeRepack(b: seq<byte>)
    requires |b| == 12 && UnpackOption(b).Ok?
    ensures AmountBytes(AmountOf(UnpackOption(b).value)) == UnpackOption(b).value
  {
    if UnpackOption(b).value.Some? { Le64RoundTrip(0, b[4..]); }
  }

  // ------------------------------------------------------------------ multisig

  function Flatten(keys: seq<Key>): (b: seq<byte>)
    ensures |b| == 32 * |keys|
  {
    if keys == [] then [] else Flatten(keys[..|keys| - 1]) + keys[|keys| - 1]
  }

  function Chunks(b: seq<byte>, count: nat): (keys: seq<Key>)
    requires |b| == 32 * count
    ensures |keys| == count
  {
    seq(count, i requires 0 <= i < count => b[32 * i..32 * i + 32])
  }

  lemma {:induction false} ChunksOfFlat(keys: seq<Key>)
    ensures Chunks(Flatten(keys), |keys|) == keys
  {
    if keys != [] {
      var n := |keys| - 1;
      ChunksOfFlat(keys[..n]);
      var b, b' := Flatten(keys), Flatten(keys[..n]);
      forall i | 0 <= i < n
        ensures Chunks(b, n + 1)[i] == keys[i]
      {
        assert b[32 * i..32 * i + 32] == b'[32 * i..32 * i + 32];
        assert Chunks(b', n)[i] == keys[i];
      }
      assert b[32 * n..32 * n + 32] == keys[n];
    }
  }

  lemma {:induction false} FlatOfChunks(b: seq<byte>, count: nat)
    requires |b| == 32 * count
    ensures Flatten(Chunks(b, count)) == b
  {
    if count > 0 {
      var n := count - 1;
      FlatOfChunks(b[..32 * n], n);
      assert Chunks(b, count)[..n] == Chunks(b[..32 * n], n) by {
        forall i | 0 <= i < n
          ensures Chunks(b, count)[i] == Chunks(b[..32 * n], n)[i]
        {
          assert b[32 * i..32 * i + 32] == b[..32 * n][32 * i..32 * i + 32];
        }
      }
      assert b == b[..32 * n] + b[32 * n..32 * n + 32];
    }
  }

  function PackMultisig(x: MultisigState): (b: seq<byte>)
    ensures |b| == MULTISIG_LEN
  {
    [x.m] + [x.n] + [BoolByte(x.isInitialized)] + Flatten(x.signers)
  }

  function UnpackMultisig(b: seq<byte>): Result<MultisigState>
    requires |b| == MULTISIG_LEN
  {
    var isInitialized :- BoolOf(b[2]);
    Ok(MultisigState(b[0], b[1], isInitialized, Chunks(b[3..], 11)))
  }

  lemma MultisigRoundTrip(x: MultisigState, b: seq<byte>)
    requires |b| == MULTISIG_LEN
    ensures UnpackMultisig(PackMultisig(x)) == Ok(x)
    ensures UnpackMultisig(b).Ok? ==> PackMultisig(UnpackMultisig(b).value) == b
  {
    hide Flatten, Chunks;
    assert PackMultisig(x)[3..] == Flatten(x.signers);
    ChunksOfFlat(x.signers);
    FlatOfChunks(b[3..], 11);
    assert b == [b[0]] + [b[1]] + [b[2]] + b[3..];
  }

  // ------------------------------------------------------------------ packing in place

  /** One more field written behind the `done` part of a destination. */
  lemma FieldWritten(done: seq<byte>, dst: seq<byte>, bytes: seq<byte>)
    requires |done| + |bytes| <= |dst|
    ensures Overwritten(done + dst[|done|..], |done|, bytes) == done + bytes + dst[|done + bytes|..]
  {
  }

  method WriteField(a: array<byte>, ghost dst: seq<byte>, ghost done: seq<byte>, at: nat, bytes: seq<byte>)
    requires |dst| == a.Length && at == |done| && at + |bytes| <= a.Length && a[..] == done + dst[at..]
    modifies a
    ensures a[..] == done + bytes + dst[at + |bytes|..]
  {
    FieldWritten(done, dst, bytes);
    Write(a, at, bytes);
  }

  method WriteFirst(a: array<byte>, ghost dst: seq<byte>, bytes: seq<byte>)
    requires |bytes| <= a.Length && a[..] == dst
    modifies a
    ensures a[..] == bytes + dst[|bytes|..]
  {
    assert dst == [] + dst[0..] && [] + bytes == bytes;
    WriteField(a, dst, [], 0, bytes);
  }

  /** `pack_coption_*` into its part of the destination. */
  method WriteOption(a: array<byte>, ghost dst: seq<byte>, ghost done: seq<byte>, at: nat, len: nat,
                     o: Option<seq<byte>>)
    requires |dst| == a.Length && at == |done| && 4 <= len && at + len <= a.Length && a[..] == done + dst[at..]
    requires o.Some? ==> |o.value| == len - 4
    modifies a
    ensures a[..] == done + PackOption(o, dst[at..at + len]) + dst[at + len..]
  {
    match o {
      case Some(v) =>
        WriteField(a, dst, done, at, SOME_TAG);
        WriteField(a, dst, done + SOME_TAG, at + 4, v);
        Assoc2(done, SOME_TAG, v);
      case None =>
        WriteField(a, dst, done, at, NONE_TAG);
        assert done + NONE_TAG + dst[at + 4..] == done + (NONE_TAG + dst[at..at + len][4..]) + dst[at + len..];
    }
  }

  /** The packed fields in front of `freeze_authority`. */
  ghost function MintFront(x: MintState, dst: seq<byte>): (b: seq<byte>)
    requires |dst| == MINT_LEN
    ensures |b| == 46
  {
    PackOption(x.mintAuthority, dst[0..36]) + Le64(x.supply) + [x.decimals] + [BoolByte(x.isInitialized)]
  }

  method PackMintFront(x: MintState, a: array<byte>)
    requires a.Length == MINT_LEN
    modifies a
    ensures a[..] == MintFront(x, old(a[..])) + old(a[..])[46..]
  {
    hide PackOption, Le64, BoolByte;
    ghost var dst := a[..];
    ghost var d1 := PackOption(x.mintAuthority, dst[0..36]);
    assert dst == [] + dst[0..];
    assert [] + d1 == d1;
    WriteOption(a, dst, [], 0, 36, x.mintAuthority);
    WriteField(a, dst, d1, 36, Le64(x.supply));
    WriteField(a, dst, d1 + Le64(x.supply), 44, [x.decimals]);
    WriteField(a, dst, d1 + Le64(x.supply) + [x.decimals], 45, [BoolByte(x.isInitialized)]);
  }

  method PackMintInto(x: MintState, a: array<byte>)
    requires a.Length == MINT_LEN
    modifies a
    ensures a[..] == PackMint(x, old(a[..]))
  {
    hide PackOption, MintFront, PackMint;
    ghost var dst := a[..];
    PackMintFront(x, a);
    WriteOption(a, dst, MintFront(x, dst), 46, 36, x.freezeAuthority);
    MintParts(x, dst);
  }

  lemma MintParts(x: MintState, dst: seq<byte>)
    requires |dst| == MINT_LEN
    ensures PackMint(x, dst) == MintFront(x, dst) + PackOption(x.freezeAuthority, dst[46..82]) + dst[82..]
  {
    hide PackOption, Le64, BoolByte;
    assert dst[0..36] == dst[..36] && dst[46..82] == dst[46..] && dst[82..] == [];
  }

  /** The packed fields in front of `is_native`. */
  ghost function TokenFront(x: TokenState, dst: seq<byte>): (b: seq<byte>)
    requires |dst| == ACCOUNT_LEN
    ensures |b| == 109
  {
    x.mint + x.owner + Le64(x.amount) + PackOption(x.delegate, dst[72..108]) + [StateByte(x.state)]
  }

  method PackTokenFront(x: TokenState, a: array<byte>)
    requires a.Length == ACCOUNT_LEN
    modifies a
    ensures a[..] == TokenFront(x, old(a[..])) + old(a[..])[109..]
  {
    hide PackOption, Le64, StateByte;
    ghost var dst := a[..];
    WriteFirst(a, dst, x.mint);
    WriteField(a, dst, x.mint, 32, x.owner);
    WriteField(a, dst, x.mint + x.owner, 64, Le64(x.amount));
    ghost var d1 := x.mint + x.owner + Le64(x.amount);
    WriteOption(a, dst, d1, 72, 36, x.delegate);
    WriteField(a, dst, d1 + PackOption(x.delegate, dst[72..108]), 108, [StateByte(x.state)]);
  }

  method PackTokenInto(x: TokenState, a: array<byte>)
    requires a.Length == ACCOUNT_LEN
    modifies a
    ensures a[..] == PackToken(x, old(a[..]))
  {
    hide PackOption, Le64, AmountBytes, TokenFront;
    ghost var dst := a[..];
    PackTokenFront(x, a);
    ghost var d3 := TokenFront(x, dst);
    WriteOption(a, dst, d3, 109, 12, AmountBytes(x.isNative));
    ghost var d4 := d3 + PackOption(AmountBytes(x.isNative), dst[109..121]);
    WriteField(a, dst, d4, 121, Le64(x.delegatedAmount));
    WriteOption(a, dst, d4 + Le64(x.delegatedAmount), 129, 36, x.closeAuthority);
    assert dst[129..165] == dst[129..] && dst[165..] == [];
    TokenParts(x, dst);
  }

  lemma TokenParts(x: TokenState, dst: seq<byte>)
    requires |dst| == ACCOUNT_LEN
    ensures PackToken(x, dst) ==
            TokenFront(x, dst) + PackOption(AmountBytes(x.isNative), dst[109..121]) + Le64(x.delegatedAmount)
            + PackOption(x.closeAuthority, dst[129..])
  {
  }

  lemma FlattenNone(keys: seq<Key>)
    ensures Flatten(keys[..0]) == []
  {
  }

  lemma FlattenNext(keys: seq<Key>, i: nat)
    requires i < |keys|
    ensures Flatten(keys[..i + 1]) == Flatten(keys[..i]) + keys[i]
  {
    assert keys[..i + 1][..i] == keys[..i];
  }

  /** Where each field of a multisig is stored. */
  lemma {:induction false} MultisigFields(x: MultisigState, p: nat)
    requires p < |x.signers|
    ensures var b := PackMultisig(x);
            && b[0] == x.m && b[1] == x.n && b[2] == BoolByte(x.isInitialized)
            && b[3 + 32 * p..35 + 32 * p] == x.signers[p]
  {
    FlattenAt(x.signers, p);
    assert PackMultisig(x)[3..] == Flatten(x.signers);
    assert PackMultisig(x)[3 + 32 * p..35 + 32 * p] == Flatten(x.signers)[32 * p..32 * p + 32];
  }

  lemma {:induction false} FlattenAt(keys: seq<Key>, p: nat)
    requires p < |keys|
    ensures Flatten(keys)[32 * p..32 * p + 32] == keys[p]
  {
    var n := |keys| - 1;
    if p < n {
      FlattenAt(keys[..n], p);
      assert Flatten(keys)[32 * p..32 * p + 32] == Flatten(keys[..n])[32 * p..32 * p + 32];
    }
  }

  method PackMultisigInto(x: MultisigState, a: array<byte>)
    requires a.Length == MULTISIG_LEN
    modifies a
    ensures a[..] == PackMultisig(x)
  {
    hide Flatten, BoolByte;
    ghost var dst := a[..];
    ghost var head := [x.m] + [x.n] + [BoolByte(x.isInitialized)];
    FlattenNone(x.signers);
    a[0] := x.m;
    a[1] := x.n;
    a[2] := BoolByte(x.isInitialized);
    assert a[..] == head + dst[3..];
    for i := 0 to |x.signers|
      invariant a[..] == head + Flatten(x.signers[..i]) + dst[3 + 32 * i..]
    {
      WriteField(a, dst, head + Flatten(x.signers[..i]), 3 + 32 * i, x.signers[i]);
      FlattenNext(x.signers, i);
      Assoc2(head, Flatten(x.signers[..i]), x.signers[i]);
    }
    assert x.signers[..11] == x.signers && dst[355..] == [];
  }

  /** The chunk loop of `unpack_from_slice`. */
  method UnpackMultisigFrom(b: seq<byte>) returns (r: Result<MultisigState>)
    requires |b| == MULTISIG_LEN
    ensures r == UnpackMultisig(b)
  {
    var isInitialized :- BoolOf(b[2]);
    var signers: seq<Key> := [];
    for i := 0 to 11
      invariant |signers| == i && forall k :: 0 <= k < i ==> signers[k] == b[3..][32 * k..32 * k + 32]
    {
      signers := signers + [b[3..][32 * i..32 * i + 32]];
    }
    assert signers == Chunks(b[3..], 11);
    r := Ok(MultisigState(b[0], b[1], isInitialized, signers));
  }

  // ------------------------------------------------------------------ the zero-copy view

  /** `PodCOption`: four tag bytes and a body that is there whatever the tag says. */
  datatype PodOption = PodOption(option: seq<byte>, value: seq<byte>) {
    predicate IsSome() {
      option == SOME_TAG
    }

    predicate IsNone() {
      option == NONE_TAG
    }

    function UnwrapOr(default: seq<byte>): seq<byte> {
      if option == NONE_TAG then default else value
    }

    function OkOr(e: Error): Result<seq<byte>> {
      if option == SOME_TAG then Ok(value) else Err(e)
    }
  }

  function PodOptionAt(b: seq<byte>): PodOption
    requires |b| >= 4
  {
    PodOption(b[..4], b[4..])
  }

  /**
   Both readings of an option's bytes: the packed reading accepts exactly the two defined tags, and on those the
   accessors of the view behave as the option does. On any other tag the view is neither some nor none, and
   `unwrap_or` takes the body although `ok_or` refuses it.
   */
  lemma PodOptionAgrees(b: seq<byte>, default: seq<byte>, e: Error)
    requires |b| >= 4
    ensures var p := PodOptionAt(b);
            && (UnpackOption(b).Ok? <==> p.IsSome() || p.IsNone())
            && (UnpackOption(b).Ok? ==>
                  var o := UnpackOption(b).value;
                  && p.IsSome() == o.Some? && p.IsNone() == o.None?
                  && p.UnwrapOr(default) == (if o.Some? then o.value else default)
                  && p.OkOr(e) == (if o.Some? then Ok(o.value) else Err(e)))
            && (UnpackOption(b).Err? ==>
                  !p.IsSome() && !p.IsNone() && p.UnwrapOr(default) == b[4..] && p.OkOr(e) == Err(e))
  {
    assert NONE_TAG[0] != SOME_TAG[0];
  }

  /** The packed reading of a mint succeeds exactly when its tags and its flag are defined values. */
  lemma MintUnpacksIff(b: seq<byte>)
    requires |b| == MINT_LEN
    ensures UnpackMint(b).Ok? <==>
              && (PodOptionAt(b[..36]).IsSome() || PodOptionAt(b[..36]).IsNone())
              && (PodOptionAt(b[46..]).IsSome() || PodOptionAt(b[46..]).IsNone()) && b[45] <= 1
    ensures UnpackMint(b).Ok? ==> UnpackMint(b).value.isInitialized == (b[MINT_INITIALIZED_AT] != 0)
  {
    PodOptionAgrees(b[..36], [], InvalidArgument);
    PodOptionAgrees(b[46..], [], InvalidArgument);
  }

  lemma TokenUnpacksIff(b: seq<byte>)
    requires |b| == ACCOUNT_LEN
    ensures UnpackToken(b).Ok? <==>
              && (PodOptionAt(b[72..108]).IsSome() || PodOptionAt(b[72..108]).IsNone()) && b[108] <= 2
              && (PodOptionAt(b[109..121]).IsSome() || PodOptionAt(b[109..121]).IsNone())
              && (PodOptionAt(b[129..]).IsSome() || PodOptionAt(b[129..]).IsNone())
    ensures UnpackToken(b).Ok? ==> (UnpackToken(b).value.state != StateUninitialized <==> b[ACCOUNT_STATE_AT] != 0)
  {
    PodOptionAgrees(b[72..108], [], InvalidArgument);
    PodOptionAgrees(b[109..121], [], InvalidArgument);
    PodOptionAgrees(b[129..], [], InvalidArgument);
  }

  // ------------------------------------------------------------------ telling the states apart

  /** `StateWithExtensions::unpack`: the packed reading of the base state in front of the extension area. */
  function UnpackState(d: seq<byte>, base: Base): Result<seq<byte>> {
    if !LengthFits(d, base) then Err(InvalidAccountData)
    else
      var initialized :- PackedInitialized(d[..base.Size()], base);
      if !initialized then Err(UninitializedAccount)
      else if !LayoutFits(d, base) then Err(InvalidAccountData)
      else if |d| > TLV_AT && d[TYPE_AT] != TypeCode(base.Type()) then Err(InvalidAccountData)
      else Ok(TlvOf(d))
  }

  function PackedInitialized(b: seq<byte>, base: Base): Result<bool>
    requires |b| == base.Size()
  {
    if base.MintBase? then
      var x :- UnpackMint(b);
      Ok(x.isInitialized)
    else
      var x :- UnpackToken(b);
      Ok(x.state != StateUninitialized)
  }

  /** Whatever the packed reading accepts, the zero-copy reading accepts, with the same extension area. */
  lemma PackedImpliesPod(d: seq<byte>, base: Base)
    requires UnpackState(d, base).Ok?
    ensures Unpack(d, base) == UnpackState(d, base)
  {
    hide UnpackMint, UnpackToken, LayoutFits;
    var b := d[..base.Size()];
    if base.MintBase? {
      MintUnpacksIff(b);
      assert b[MINT_INITIALIZED_AT] == d[MINT_INITIALIZED_AT];
    } else {
      TokenUnpacksIff(b);
      assert b[ACCOUNT_STATE_AT] == d[ACCOUNT_STATE_AT];
    }
  }

  /** No buffer is both an initialised mint and an initialised account, nor either at a multisig's length. */
  lemma StatesAreDistinct(d: seq<byte>)
    ensures !(Unpack(d, MintBase).Ok? && Unpack(d, AccountBase).Ok?)
    ensures !(UnpackState(d, MintBase).Ok? && UnpackState(d, AccountBase).Ok?)
    ensures |d| == MULTISIG_LEN ==> Unpack(d, MintBase).Err? && Unpack(d, AccountBase).Err?
  {
    if UnpackState(d, MintBase).Ok? { PackedImpliesPod(d, MintBase); }
    if UnpackState(d, AccountBase).Ok? { PackedImpliesPod(d, AccountBase); }
  }

  /** `valid_account_data` */
  predicate ValidAccountData(d: seq<byte>) {
    || (|d| == ACCOUNT_LEN && d[ACCOUNT_STATE_AT] != 0)
    || (|d| > ACCOUNT_LEN && |d| != MULTISIG_LEN && d[ACCOUNT_LEN] == TypeCode(Account) && d[ACCOUNT_STATE_AT] != 0)
  }

  /**
   The quick check accepts everything the zero-copy unpack accepts, and nothing else but buffers of exactly 166
   bytes, which have an account type and no room for an entry.
   */
  lemma ValidAccountDataIff(d: seq<byte>)
    ensures ValidAccountData(d) <==>
              || Unpack(d, AccountBase).Ok?
              || (|d| == TLV_AT && d[TYPE_AT] == TypeCode(Account) && d[ACCOUNT_STATE_AT] != 0)
  {
    if |d| > TLV_AT {
      assert d[AccountBase.Size()..TYPE_AT] == [];
    }
  }
}
