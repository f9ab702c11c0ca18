/** One run, step by step: the states the theorems speak of are reached. */
module LedgerExample {
  import opened Bytes
  import opened Common
  import opened ExtensionTypes
  import opened LedgerState
  import opened LedgerRuns
  import opened LedgerTheorems
  import Multisigs
  import L = Ledger

  const MINT_KEY: Pubkey := 10
  const TOKEN_KEY: Pubkey := 11
  const OWNER: Pubkey := 8
  const MINTER: Pubkey := 7

  function AnyCtx(): Ctx {
    Ctx(n => 0, 0, false, false, false)
  }

  const NEW_MINT: Info := Info(TOKEN_PROGRAM, 1, 170, ZEROED)
  const TYPED_MINT: Info := Info(TOKEN_PROGRAM, 1, 170, Blank([NON_TRANSFERABLE], NO_MINT_EXT))
  const NEW_TOKEN: Info := Info(TOKEN_PROGRAM, 1, 174, ZEROED)

  function MintWith(supply: u64): Info {
    Info(TOKEN_PROGRAM, 1, 170, MintData(Mint.Mint(Some(MINTER), supply, 0, None, [NON_TRANSFERABLE], NO_MINT_EXT)))
  }

  function TokenWith(amount: u64): Info {
    Info(TOKEN_PROGRAM, 1, 174,
         TokenData(Token(MINT_KEY, OWNER, amount, None, false, None, 0, None,
                         [NON_TRANSFERABLE_ACCOUNT, IMMUTABLE_OWNER],
                         0, false, false)))
  }

  function Steps(): seq<Step> {
    [ Outside(MINT_KEY, NEW_MINT),
      Call(AnyCtx(), InitializeNonTransferableMint(MINT_KEY)),
      Call(AnyCtx(), InitializeMint(MINT_KEY, 0, MINTER, None)),
      Outside(TOKEN_KEY, NEW_TOKEN),
      Call(AnyCtx(), InitializeAccount(TOKEN_KEY, MINT_KEY, OWNER)),
      Call(AnyCtx(), MintTo(MINT_KEY, TOKEN_KEY, None, Signer(MINTER, true), [], 5)) ]
  }

  lemma SetUpMint()
    ensures Next(map[], Steps()[0]) == map[MINT_KEY := NEW_MINT]
    ensures Next(map[MINT_KEY := NEW_MINT], Steps()[1]) == map[MINT_KEY := TYPED_MINT]
  {
    hide InitExtension, TryCalculateAccountLen;
    MintLengths();
  }

  lemma InitMint()
    ensures Next(map[MINT_KEY := TYPED_MINT], Steps()[2]) == map[MINT_KEY := MintWith(0)]
  {
    hide InitExtension, TryCalculateAccountLen;
    MintLengths();
  }

  lemma MintLengths()
    ensures InitExtension(170, [], NON_TRANSFERABLE) == Ok([NON_TRANSFERABLE])
    ensures TryCalculateAccountLen(MintBase, [NON_TRANSFERABLE]) == Ok(170)
  {
    assert SumTlvLen([]) == 0 && [NON_TRANSFERABLE][..0] == [];
    assert Dedupe([NON_TRANSFERABLE]) == [NON_TRANSFERABLE];
    assert SumTlvLen([NON_TRANSFERABLE]) == 4;
  }

  lemma SetUpToken()
    ensures Next(map[MINT_KEY := MintWith(0)], Steps()[3]) == map[MINT_KEY := MintWith(0), TOKEN_KEY := NEW_TOKEN]
    ensures Next(map[MINT_KEY := MintWith(0), TOKEN_KEY := NEW_TOKEN], Steps()[4])
            == map[MINT_KEY := MintWith(0), TOKEN_KEY := TokenWith(0)]
  {
    hide RequiredInitAccountExtensions, InitExtensions, TryCalculateAccountLen;
    RequiredHere();
  }

  const ONE := [NON_TRANSFERABLE_ACCOUNT]
  const TWO := [NON_TRANSFERABLE_ACCOUNT, IMMUTABLE_OWNER]

  lemma RequiredHere()
    ensures RequiredInitAccountExtensions([NON_TRANSFERABLE]) == TWO
    ensures TryCalculateAccountLen(AccountBase, TWO) == Ok(174)
    ensures InitExtensions(174, [], TWO) == Ok(TWO)
  {
    hide TryCalculateAccountLen, InitExtension, InitExtensions;
    assert [NON_TRANSFERABLE][..0] == [];
    TokenLength();
    TokenExtensions();
  }

  lemma TokenLength()
    ensures TryCalculateAccountLen(AccountBase, ONE) == Ok(170)
    ensures TryCalculateAccountLen(AccountBase, TWO) == Ok(174)
  {
    assert TWO[..1] == ONE && ONE[..0] == [];
    assert SumTlvLen(ONE) == 4 && SumTlvLen(TWO) == 8;
    assert Dedupe(ONE) == ONE && Dedupe(TWO) == TWO;
  }

  lemma TokenExtensions()
    ensures InitExtensions(174, [], TWO) == Ok(TWO)
  {
    hide TryCalculateAccountLen;
    TokenLength();
    assert TWO[..1] == ONE && ONE[..0] == [];
    assert [] + ONE == ONE && ONE + [IMMUTABLE_OWNER] == TWO;
    assert InitExtensions(174, [], []) == Ok([]);
    assert InitExtension(174, [], NON_TRANSFERABLE_ACCOUNT) == Ok(ONE);
    assert InitExtensions(174, [], ONE) == Ok(ONE);
    assert InitExtension(174, ONE, IMMUTABLE_OWNER) == Ok(TWO);
  }

  lemma MintFive()
    ensures Next(map[MINT_KEY := MintWith(0), TOKEN_KEY := TokenWith(0)], Steps()[5])
            == map[MINT_KEY := MintWith(5), TOKEN_KEY := TokenWith(5)]
  {
  }

  /** One more step that does not close `m`. */
  lemma OneMore(s: State, es: seq<Step>, e: Step, m: Pubkey)
    requires NeverHappens(s, es, Closing(m)) && (e.Call? ==> !e.instr.CloseAccount?)
    ensures Run(s, es + [e]) == Next(Run(s, es), e) && NeverHappens(s, es + [e], Closing(m))
  {
    hide Next, Commits;
    assert (es + [e])[..|es|] == es;
  }

  /** From the empty ledger, five non-transferable tokens come to exist. */
  lemma RunReachesTokens()
    ensures Genesis(map[]) && Run(map[], Steps()) == map[MINT_KEY := MintWith(5), TOKEN_KEY := TokenWith(5)]
    ensures NeverHappens(map[], Steps(), Closing(MINT_KEY))
  {
    hide Next, Happens, MintWith, TokenWith, Run, NeverHappens;
    SetUpMint();
    InitMint();
    SetUpToken();
    MintFive();
    var es := Steps();
    EmptyRun(MINT_KEY);
    OneMore(map[], [], es[0], MINT_KEY);
    OneMore(map[], [] + [es[0]], es[1], MINT_KEY);
    OneMore(map[], [] + [es[0]] + [es[1]], es[2], MINT_KEY);
    OneMore(map[], [] + [es[0]] + [es[1]] + [es[2]], es[3], MINT_KEY);
    OneMore(map[], [] + [es[0]] + [es[1]] + [es[2]] + [es[3]], es[4], MINT_KEY);
    OneMore(map[], [] + [es[0]] + [es[1]] + [es[2]] + [es[3]] + [es[4]], es[5], MINT_KEY);
    assert [] + [es[0]] + [es[1]] + [es[2]] + [es[3]] + [es[4]] + [es[5]] == es;
  }

  lemma EmptyRun(m: Pubkey)
    ensures Run(map[], []) == map[] && NeverHappens(map[], [], Closing(m))
  {
  }
}
