/**
 The instructions that change the accounts in several steps, in the form of the source: methods that walk through their
 checks, loop and update in place. Each is proved to compute its function in `Ledger`, which writes once at the end;
 after an error the accounts may be half changed, and `Submit` restores them as the runtime does.
 */
module Processor {
  import opened Bytes
  import opened Common
  import opened ExtensionTypes
  import opened TransferFees
  import opened LedgerState
  import opened LedgerRuns
  import Multisigs
  import L = Ledger
  import LedgerBalance
  import LedgerGood

  /** The method returned what the specification says: its error, or success with its state. */
  ghost predicate Computes(r: Result<()>, after: State, spec: Result<State>) {
    if r.Ok? then spec.Ok? && after == spec.value else spec.Err? && spec.error == r.error
  }

  lemma {:induction false} HarvestErrorStays(s: State, mintKey: Pubkey, sources: seq<Pubkey>, n: nat)
    requires Get(s, mintKey).data.MintData? && n <= |sources| && L.HarvestAll(s, mintKey, sources[..n]).Err?
    ensures L.HarvestAll(s, mintKey, sources) == L.HarvestAll(s, mintKey, sources[..n])
  {
    if n == |sources| {
      assert sources[..n] == sources;
    } else {
      var init := sources[..|sources| - 1];
      assert init[..n] == sources[..n];
      HarvestErrorStays(s, mintKey, init, n);
    }
  }

  lemma {:induction false} WithdrawErrorStays(s: State, mintKey: Pubkey, dest: Pubkey, sources: seq<Pubkey>, n: nat)
    requires Get(s, dest).data.TokenData? && n <= |sources| && L.WithdrawAll(s, mintKey, dest, sources[..n]).Err?
    ensures L.WithdrawAll(s, mintKey, dest, sources) == L.WithdrawAll(s, mintKey, dest, sources[..n])
  {
    if n == |sources| {
      assert sources[..n] == sources;
    } else {
      var init := sources[..|sources| - 1];
      assert init[..n] == sources[..n];
      WithdrawErrorStays(s, mintKey, dest, init, n);
    }
  }

  lemma {:induction false} InitErrorStays(dataLen: nat, types: seq<ExtensionType>, ts: seq<ExtensionType>, n: nat)
    requires n <= |ts| && InitExtensions(dataLen, types, ts[..n]).Err?
    ensures InitExtensions(dataLen, types, ts) == InitExtensions(dataLen, types, ts[..n])
  {
    if n == |ts| {
      assert ts[..n] == ts;
    } else {
      var init := ts[..|ts| - 1];
      assert init[..n] == ts[..n];
      InitErrorStays(dataLen, types, init, n);
    }
  }

  lemma NothingStored(s: State, k: Pubkey)
    requires Get(s, k).data.TokenData?
    ensures s[k := L.WithToken(Get(s, k), Get(s, k).data.token)] == s
  {
  }

  lemma DebitOfPermanent(s: State, ctx: Ctx, a: Token, pd: Option<Pubkey>, authority: Signer, signers: seq<Signer>,
                         amount: u64, charge: bool, blocked: Error)
    requires pd == Some(authority.key)
    ensures L.AuthorizeDebit(s, ctx, a, pd, authority, signers, amount, charge, blocked) ==
            match Multisigs.ValidateOwner(s, authority.key, authority, signers)
            case Err(e) => Err(e)
            case Ok(_) => Ok(a)
  {
    hide Multisigs.ValidateOwner;
  }

  lemma DebitOfDelegate(s: State, ctx: Ctx, a: Token, pd: Option<Pubkey>, authority: Signer, signers: seq<Signer>,
                        amount: u64, charge: bool, blocked: Error)
    requires pd != Some(authority.key) && a.delegate == Some(authority.key)
    ensures L.AuthorizeDebit(s, ctx, a, pd, authority, signers, amount, charge, blocked) ==
            match Multisigs.ValidateOwner(s, authority.key, authority, signers)
            case Err(e) => Err(e)
            case Ok(_) =>
              if a.delegatedAmount < amount then Err(InsufficientFunds)
              else Ok(if charge then L.Spend(a, amount) else a)
  {
    hide Multisigs.ValidateOwner, L.Spend;
  }

  lemma DebitOfOwner(s: State, ctx: Ctx, a: Token, pd: Option<Pubkey>, authority: Signer, signers: seq<Signer>,
                     amount: u64, charge: bool, blocked: Error)
    requires pd != Some(authority.key) && a.delegate != Some(authority.key)
    ensures L.AuthorizeDebit(s, ctx, a, pd, authority, signers, amount, charge, blocked) ==
            match Multisigs.ValidateOwner(s, a.owner, authority, signers)
            case Err(e) => Err(e)
            case Ok(_) => if CPI_GUARD in a.types && a.lockCpi && ctx.inCpi then Err(blocked) else Ok(a)
  {
    hide Multisigs.ValidateOwner;
  }

  // Instructions that write more than one account, or one account in several steps or in a loop.

  predicate MovesTokens(i: Instr) {
    i.Transfer? || i.MintTo? || i.Burn? || i.CloseAccount?
  }

  predicate SetsUpInSteps(i: Instr) {
    i.InitializeAccount? || i.InitializeMultisig? || i.WithdrawExcessLamports? || i.Reallocate? || i.CreateNativeMint?
  }

  predicate MovesWithheld(i: Instr) {
    i.WithdrawWithheldFromMint? || i.HarvestWithheldToMint? || i.WithdrawWithheldFromAccounts?
  }

  class Bank {
    var accounts: State

    constructor (s: State)
      ensures accounts == s
    {
      accounts := s;
    }

    // ------------------------------------------------------------------ writing through a borrowed account

    method StoreToken(k: Pubkey, t: Token)
      modifies this
      ensures accounts == old(accounts)[k := L.WithToken(Get(old(accounts), k), t)]
    {
      accounts := accounts[k := Get(accounts, k).(data := TokenData(t))];
    }

    method StoreMint(k: Pubkey, m: Mint)
      modifies this
      ensures accounts == old(accounts)[k := L.WithMint(Get(old(accounts), k), m)]
    {
      accounts := accounts[k := Get(accounts, k).(data := MintData(m))];
    }

    method SetLamports(k: Pubkey, lamports: u64)
      modifies this
      ensures accounts == old(accounts)[k := Get(old(accounts), k).(lamports := lamports)]
    {
      accounts := accounts[k := Get(accounts, k).(lamports := lamports)];
    }

    // ------------------------------------------------------------------ authority

    method ValidateOwner(expected: Pubkey, authority: Signer, signers: seq<Signer>) returns (r: Result<()>)
      ensures r == Multisigs.ValidateOwner(accounts, expected, authority, signers)
    {
      if expected != authority.key {
        return Err(OwnerMismatch);
      }
      var i := Get(accounts, authority.key);
      if i.owner == TOKEN_PROGRAM && i.dataLen == MULTISIG_LEN {
        var x := Multisigs.MultisigOf(i);
        if x.n > |x.signers| {
          return Err(Panic);
        }
        r := Multisigs.CheckMultisig(x, signers);
      } else if !authority.isSigner {
        r := Err(MissingRequiredSignature);
      } else {
        r := Ok(());
      }
    }

    method ChargeDelegate(k: Pubkey, amount: u64)
      requires Get(accounts, k).data.TokenData? && amount <= Get(accounts, k).data.token.delegatedAmount
      modifies this
      ensures var i := Get(old(accounts), k);
              accounts == old(accounts)[k := L.WithToken(i, L.Spend(i.data.token, amount))]
    {
      var a := Get(accounts, k).data.token;
      StoreToken(k, a.(delegatedAmount := a.delegatedAmount - amount));
      if Get(accounts, k).data.token.delegatedAmount == 0 {
        StoreToken(k, Get(accounts, k).data.token.(delegate := None));
      }
    }

    /** The three-way choice of authority in transfers and burns; the delegate's allowance is lowered in place. */
    method AuthorizeDebit(ctx: Ctx, k: Pubkey, permanentDelegate: Option<Pubkey>, authority: Signer,
                          signers: seq<Signer>,
                          amount: u64, charge: bool, blocked: Error) returns (r: Result<()>)
      requires Get(accounts, k).data.TokenData?
      modifies this
      ensures var i := Get(old(accounts), k);
              var spec := L.AuthorizeDebit(old(accounts), ctx, i.data.token, permanentDelegate, authority, signers,
                                           amount, charge, blocked);
              if r.Ok? then spec.Ok?
                  && accounts == old(accounts)[k := L.WithToken(i, spec.value)] else spec == Err(r.error)
    {
      hide Multisigs.ValidateOwner, L.AuthorizeDebit, L.Spend, L.WithToken, Get;
      var a := Get(accounts, k).data.token;
      NothingStored(accounts, k);
      if permanentDelegate == Some(authority.key) {
        DebitOfPermanent(accounts, ctx, a, permanentDelegate, authority, signers, amount, charge, blocked);
        var _ :- ValidateOwner(permanentDelegate.value, authority, signers);
      } else if a.delegate == Some(authority.key) {
        DebitOfDelegate(accounts, ctx, a, permanentDelegate, authority, signers, amount, charge, blocked);
        var _ :- ValidateOwner(a.delegate.value, authority, signers);
        if a.delegatedAmount < amount {
          return Err(InsufficientFunds);
        }
        if charge {
          ChargeDelegate(k, amount);
        }
      } else {
        DebitOfOwner(accounts, ctx, a, permanentDelegate, authority, signers, amount, charge, blocked);
        var _ :- ValidateOwner(a.owner, authority, signers);
        if CPI_GUARD in a.types && a.lockCpi && ctx.inCpi {
          return Err(blocked);
        }
      }
      r := Ok(());
    }

    // ------------------------------------------------------------------ transfer

    method ProcessTransfer(ctx: Ctx, source: Pubkey, checked: Option<L.Checked>, dest: Pubkey, authority: Signer,
                           signers: seq<Signer>, amount: u64, expectedFee: Option<u64>) returns (r: Result<()>)
      modifies this
      ensures Computes(r, accounts,
                       L.Transfer(old(accounts), ctx, source, checked, dest, authority, signers, amount, expectedFee))
    {
      hide Multisigs.ValidateOwner, L.AuthorizeDebit, L.TransferTerms, L.Move;
      var a :- UnpackToken(Get(accounts, source));
      if a.frozen {
        return Err(AccountFrozen);
      }
      if a.amount < amount {
        return Err(InsufficientFunds);
      }
      if NON_TRANSFERABLE_ACCOUNT in a.types {
        return Err(NonTransferable);
      }
      var terms :- L.TransferTerms(accounts, ctx, a, checked, amount);
      var (fee, permanentDelegate, hook) := terms;
      if expectedFee.Some? && expectedFee.value != fee {
        return Err(FeeMismatch);
      }
      var selfTransfer := source == dest;
      var _ :- AuthorizeDebit(ctx, source, permanentDelegate, authority, signers, amount, !selfTransfer,
                              CpiGuardTransferBlocked);
      :- L.CheckProgram(Get(accounts, source).owner);
      :- L.CheckProgram(Get(accounts, dest).owner);
      if selfTransfer {
        SelfAuthorized(old(accounts), ctx, source, permanentDelegate, authority, signers, amount);
        return Ok(());
      }
      MoveAfterDebit(old(accounts), ctx, source, Get(accounts, source).data.token, dest, amount, fee, hook);
      r := MoveTokens(ctx, source, dest, amount, fee, hook);
    }

    /** The credit to the destination, less the fee it withholds. */
    method CreditTokens(k: Pubkey, amount: u64, fee: u64) returns (r: Result<()>)
      requires Get(accounts, k).data.TokenData?
      modifies this
      ensures var i := Get(old(accounts), k);
              Computes(r, accounts,
                match L.Credit(i.data.token, amount, fee)
                case Err(e) => Err(e)
                case Ok(d) => Ok(old(accounts)[k := L.WithToken(i, d)]))
    {
      var d := Get(accounts, k).data.token;
      if amount < fee || d.amount + (amount - fee) > U64_MAX {
        return Err(Overflow);
      }
      StoreToken(k, d.(amount := d.amount + (amount - fee)));
      if fee > 0 {
        if TRANSFER_FEE_AMOUNT !in d.types {
          return Err(InvalidState);
        }
        if d.withheld + fee > U64_MAX {
          return Err(Overflow);
        }
        StoreToken(k, Get(accounts, k).data.token.(withheld := d.withheld + fee));
      }
      r := Ok(());
    }

    method MoveLamports(source: Pubkey, dest: Pubkey, lamports: u64) returns (r: Result<()>)
      requires source != dest
      modifies this
      ensures var si, di := Get(old(accounts), source), Get(old(accounts), dest);
              Computes(r, accounts,
                if si.lamports < lamports || di.lamports + lamports > U64_MAX then Err(Overflow)
                else Ok(old(accounts)[source := si.(lamports := si.lamports - lamports)]
                                     [dest := di.(lamports := di.lamports + lamports)]))
    {
      if Get(accounts, source).lamports < lamports {
        return Err(Overflow);
      }
      SetLamports(source, Get(accounts, source).lamports - lamports);
      if Get(accounts, dest).lamports + lamports > U64_MAX {
        return Err(Overflow);
      }
      SetLamports(dest, Get(accounts, dest).lamports + lamports);
      r := Ok(());
    }

    /** The tail of `process_transfer`: amounts, withheld fee, lamports of native accounts, and the hook. */
    method MoveTokens(ctx: Ctx, source: Pubkey, dest: Pubkey, amount: u64, fee: u64, hook: Option<Pubkey>)
      returns (r: Result<()>)
      requires source != dest && Get(accounts, source).data.TokenData?
      modifies this
      ensures Computes(r, accounts,
                       L.Move(old(accounts), ctx, source, Get(old(accounts), source).data.token, dest, amount, fee,
                              hook))
    {
      hide L.Credit;
      var a := Get(accounts, source).data.token;
      var d :- UnpackToken(Get(accounts, dest));
      if d.frozen {
        return Err(AccountFrozen);
      }
      if a.mint != d.mint {
        return Err(MintMismatch);
      }
      if MEMO_TRANSFER in d.types && d.memoRequired && !ctx.memoBefore {
        return Err(NoMemo);
      }
      if a.amount < amount {
        return Err(Overflow);
      }
      StoreToken(source, a.(amount := a.amount - amount));
      var _ :- CreditTokens(dest, amount, fee);
      if a.native.Some? {
        var _ :- MoveLamports(source, dest, amount);
      }
      if hook.Some? {
        if TRANSFER_HOOK_ACCOUNT !in a.types || TRANSFER_HOOK_ACCOUNT !in d.types {
          return Err(ExtensionNotFound);
        }
        if !ctx.hookSucceeds {
          return Err(HookFailed);
        }
      }
      r := Ok(());
    }

    // ------------------------------------------------------------------ initialisation

    /** The loop of `init_account_extension_from_type` over the required extensions. */
    static method InitRequired(dataLen: nat, types: seq<ExtensionType>, required: seq<ExtensionType>)
      returns (r: Result<seq<ExtensionType>>)
      ensures r == InitExtensions(dataLen, types, required)
    {
      var held := types;
      assert required[..0] == [];
      for n := 0 to |required|
        invariant InitExtensions(dataLen, types, required[..n]) == Ok(held)
      {
        assert required[..n + 1][..n] == required[..n];
        var next := InitExtension(dataLen, held, required[n]);
        if next.Err? {
          InitErrorStays(dataLen, types, required, n + 1);
          return next;
        }
        held := next.value;
      }
      assert required[..|required|] == required;
      r := Ok(held);
    }

    method ProcessInitializeAccount(ctx: Ctx, k: Pubkey, mintKey: Pubkey, owner: Pubkey) returns (r: Result<()>)
      modifies this
      ensures Computes(r, accounts, L.InitializeAccount(old(accounts), ctx, k, mintKey, owner))
    {
      hide TryCalculateAccountLen, InitExtensions, RequiredInitAccountExtensions;
      var i := Get(accounts, k);
      var types :- UnpackUninitialized(i, AccountBase);
      if i.lamports < ctx.rent(i.dataLen) {
        return Err(NotRentExempt);
      }
      var mi := Get(accounts, mintKey);
      if !mi.data.MintData? {
        return Err(InvalidMint);
      }
      var m := mi.data.mint;
      :- L.CheckProgram(mi.owner);
      var required := RequiredInitAccountExtensions(m.types);
      var len :- TryCalculateAccountLen(AccountBase, required);
      if len > i.dataLen {
        return Err(InvalidAccountData);
      }
      var held :- InitRequired(i.dataLen, types, required);
      var frozen := false;
      if DEFAULT_ACCOUNT_STATE in m.types {
        frozen := m.ext.defaultFrozen;
      }
      var t := Token(mintKey, owner, 0, None, frozen, None, 0, None, held, 0, false, false);
      if mintKey == NATIVE_MINT {
        var reserve := ctx.rent(i.dataLen);
        t := t.(native := Some(reserve), amount := i.lamports - reserve);
      }
      StoreToken(k, t);
      r := Ok(());
    }

    method ProcessInitializeMultisig(ctx: Ctx, k: Pubkey, m: u8, keys: seq<Pubkey>) returns (r: Result<()>)
      modifies this
      ensures Computes(r, accounts, L.InitializeMultisig(old(accounts), ctx, k, m, keys))
    {
      var i := Get(accounts, k);
      if i.dataLen != MULTISIG_LEN || (i.data != ZEROED && !i.data.MultisigData?) {
        return Err(InvalidArgument);
      }
      if i.data != ZEROED {
        return Err(AlreadyInUse);
      }
      if i.lamports < ctx.rent(i.dataLen) {
        return Err(NotRentExempt);
      }
      // the count is truncated to a byte
      var n := |keys| % 256;
      if n < 1 || n > MAX_SIGNERS {
        return Err(InvalidNumberOfProvidedSigners);
      }
      if m < 1 || m > MAX_SIGNERS {
        return Err(InvalidNumberOfRequiredSigners);
      }
      var stored := new Pubkey[MAX_SIGNERS](_ => 0);
      for j := 0 to |keys|
        invariant j <= MAX_SIGNERS && accounts == old(accounts)
        invariant stored[..] == keys[..j] + L.NoKeys(MAX_SIGNERS - j)
      {
        if j >= MAX_SIGNERS {
          return Err(Panic);
        }
        stored[j] := keys[j];
      }
      assert keys[..|keys|] == keys;
      assert stored[..] == keys + L.NoKeys(MAX_SIGNERS - |keys|);
      accounts := accounts[k := i.(data := MultisigData(Multisig(m, n, stored[..])))];
      r := Ok(());
    }

    // ------------------------------------------------------------------ supply

    method ProcessMintTo(mintKey: Pubkey, dest: Pubkey, decimals: Option<u8>, authority: Signer, signers: seq<Signer>,
                         amount: u64) returns (r: Result<()>)
      modifies this
      ensures Computes(r, accounts, L.MintTo(old(accounts), mintKey, dest, decimals, authority, signers, amount))
    {
      hide Multisigs.ValidateOwner;
      var d :- UnpackToken(Get(accounts, dest));
      if d.frozen {
        return Err(AccountFrozen);
      }
      if d.native.Some? {
        return Err(NativeNotSupported);
      }
      if mintKey != d.mint {
        return Err(MintMismatch);
      }
      var m :- UnpackMint(Get(accounts, mintKey));
      if NON_TRANSFERABLE in m.types && IMMUTABLE_OWNER !in d.types {
        return Err(NonTransferableNeedsImmutableOwnership);
      }
      if decimals.Some? && decimals.value != m.decimals {
        return Err(MintDecimalsMismatch);
      }
      if m.authority.None? {
        return Err(FixedSupply);
      }
      var _ :- ValidateOwner(m.authority.value, authority, signers);
      :- L.CheckProgram(Get(accounts, mintKey).owner);
      :- L.CheckProgram(Get(accounts, dest).owner);
      if d.amount + amount > U64_MAX {
        return Err(Overflow);
      }
      StoreToken(dest, d.(amount := d.amount + amount));
      if m.supply + amount > U64_MAX {
        return Err(Overflow);
      }
      StoreMint(mintKey, m.(supply := m.supply + amount));
      r := Ok(());
    }

    method ProcessBurn(ctx: Ctx, source: Pubkey, mintKey: Pubkey, decimals: Option<u8>, authority: Signer,
                       signers: seq<Signer>, amount: u64) returns (r: Result<()>)
      modifies this
      ensures Computes(r, accounts, L.Burn(old(accounts), ctx, source, mintKey, decimals, authority, signers, amount))
    {
      hide Multisigs.ValidateOwner, L.AuthorizeDebit;
      var a :- UnpackToken(Get(accounts, source));
      var m :- UnpackMint(Get(accounts, mintKey));
      if a.frozen {
        return Err(AccountFrozen);
      }
      if a.native.Some? {
        return Err(NativeNotSupported);
      }
      if a.amount < amount {
        return Err(InsufficientFunds);
      }
      if mintKey != a.mint {
        return Err(MintMismatch);
      }
      if decimals.Some? && decimals.value != m.decimals {
        return Err(MintDecimalsMismatch);
      }
      if !a.OwnedBySystemOrIncinerator() {
        var _ :- AuthorizeDebit(ctx, source, PermanentDelegateOf(m), authority, signers, amount, true,
                                CpiGuardBurnBlocked);
        DebitKeeps(old(accounts), ctx, a, PermanentDelegateOf(m), authority, signers, amount, CpiGuardBurnBlocked);
      }
      :- L.CheckProgram(Get(accounts, source).owner);
      :- L.CheckProgram(Get(accounts, mintKey).owner);
      var left := Get(accounts, source).data.token;
      StoreToken(source, left.(amount := left.amount - amount));
      if m.supply < amount {
        return Err(Overflow);
      }
      StoreMint(mintKey, m.(supply := m.supply - amount));
      r := Ok(());
    }

    // ------------------------------------------------------------------ closing

    method MayCloseToken(ctx: Ctx, a: Token, dest: Pubkey, authority: Signer, signers: seq<Signer>)
      returns (r: Result<()>)
      ensures r == L.CheckCloseToken(accounts, ctx, a, dest, authority, signers)
    {
      hide Multisigs.ValidateOwner;
      if a.native.None? && a.amount != 0 {
        return Err(NonNativeHasBalance);
      }
      var closer := if a.closeAuthority.Some? then a.closeAuthority.value else a.owner;
      if !a.OwnedBySystemOrIncinerator() {
        if CPI_GUARD in a.types && a.lockCpi && ctx.inCpi && dest != a.owner {
          return Err(CpiGuardCloseAccountBlocked);
        }
        var _ :- ValidateOwner(closer, authority, signers);
      } else if dest != INCINERATOR {
        return Err(InvalidAccountData);
      }
      if TRANSFER_FEE_AMOUNT in a.types && a.withheld != 0 {
        return Err(AccountHasWithheldTransferFees);
      }
      r := Ok(());
    }

    method MayCloseMint(m: Mint, authority: Signer, signers: seq<Signer>) returns (r: Result<()>)
      ensures r == L.CheckCloseMint(accounts, m, authority, signers)
    {
      hide Multisigs.ValidateOwner;
      if MINT_CLOSE_AUTHORITY !in m.types {
        return Err(ExtensionNotFound);
      }
      if m.ext.closeAuthority.None? {
        return Err(AuthorityTypeNotSupported);
      }
      var _ :- ValidateOwner(m.ext.closeAuthority.value, authority, signers);
      if m.supply != 0 {
        return Err(MintHasSupply);
      }
      r := Ok(());
    }

    method ProcessCloseAccount(ctx: Ctx, k: Pubkey, dest: Pubkey, authority: Signer, signers: seq<Signer>)
      returns (r: Result<()>)
      modifies this
      ensures Computes(r, accounts, L.CloseAccount(old(accounts), ctx, k, dest, authority, signers))
    {
      hide L.CheckCloseToken, L.CheckCloseMint;
      if k == dest {
        return Err(InvalidAccountData);
      }
      var i := Get(accounts, k);
      if i.data.TokenData? {
        var _ :- MayCloseToken(ctx, i.data.token, dest, authority, signers);
      } else if i.data.MintData? {
        var _ :- MayCloseMint(i.data.mint, authority, signers);
      } else {
        return Err(UninitializedAccount);
      }
      if Get(accounts, dest).lamports + i.lamports > U64_MAX {
        return Err(Overflow);
      }
      SetLamports(dest, Get(accounts, dest).lamports + i.lamports);
      SetLamports(k, 0);
      DeleteAccount(k);
      r := Ok(());
    }

    /** `delete_account`: hands the account to the system program and drops its data. */
    method DeleteAccount(k: Pubkey)
      modifies this
      ensures accounts == old(accounts)[k := Info(SYSTEM_PROGRAM, Get(old(accounts), k).lamports, 0, ZEROED)]
    {
      accounts := accounts[k := Get(accounts, k).(owner := SYSTEM_PROGRAM)];
      accounts := accounts[k := accounts[k].(dataLen := 0, data := ZEROED)];
    }

    // ------------------------------------------------------------------ lamports and data length

    method MayWithdrawExcess(k: Pubkey, authority: Signer, signers: seq<Signer>) returns (r: Result<()>)
      ensures r == L.CheckWithdrawExcess(accounts, k, authority, signers)
    {
      hide Multisigs.ValidateOwner;
      var i := Get(accounts, k);
      if i.data.TokenData? {
        if i.data.token.native.Some? {
          return Err(NativeNotSupported);
        }
        r := ValidateOwner(i.data.token.owner, authority, signers);
      } else if i.data.MintData? {
        if i.data.mint.authority.None? {
          return Err(AuthorityTypeNotSupported);
        }
        r := ValidateOwner(i.data.mint.authority.value, authority, signers);
      } else if i.dataLen == MULTISIG_LEN {
        r := ValidateOwner(k, authority, signers);
      } else {
        r := Err(InvalidState);
      }
    }

    method ProcessWithdrawExcessLamports(ctx: Ctx, k: Pubkey, dest: Pubkey, authority: Signer, signers: seq<Signer>)
      returns (r: Result<()>)
      modifies this
      ensures Computes(r, accounts, L.WithdrawExcessLamports(old(accounts), ctx, k, dest, authority, signers))
    {
      hide L.CheckWithdrawExcess;
      var i := Get(accounts, k);
      var _ :- MayWithdrawExcess(k, authority, signers);
      var reserve := ctx.rent(i.dataLen);
      if i.lamports < reserve {
        return Err(NotRentExempt);
      }
      var excess := i.lamports - reserve;
      SetLamports(k, i.lamports - excess);
      if Get(accounts, dest).lamports + excess > U64_MAX {
        return Err(Overflow);
      }
      SetLamports(dest, Get(accounts, dest).lamports + excess);
      r := Ok(());
    }

    /** `system_instruction::transfer`, invoked by this program. */
    method SystemTransfer(payer: Signer, dest: Pubkey, lamports: nat) returns (r: Result<()>)
      modifies this
      ensures Computes(r, accounts, L.SystemTransfer(old(accounts), payer, dest, lamports))
    {
      var pi := Get(accounts, payer.key);
      if !payer.isSigner {
        return Err(MissingRequiredSignature);
      }
      if pi.owner != SYSTEM_PROGRAM || pi.dataLen != 0 {
        return Err(InvalidArgument);
      }
      if pi.lamports < lamports {
        return Err(InsufficientLamports);
      }
      SetLamports(payer.key, pi.lamports - lamports);
      if Get(accounts, dest).lamports + lamports > U64_MAX {
        return Err(Overflow);
      }
      SetLamports(dest, Get(accounts, dest).lamports + lamports);
      r := Ok(());
    }

    method ProcessReallocate(ctx: Ctx, k: Pubkey, payer: Signer, authority: Signer, signers: seq<Signer>,
                             newTypes: seq<ExtensionType>) returns (r: Result<()>)
      modifies this
      ensures Computes(r, accounts, L.Reallocate(old(accounts), ctx, k, payer, authority, signers, newTypes))
    {
      hide Multisigs.ValidateOwner, TryCalculateAccountLen, L.Grow;
      var a :- UnpackToken(Get(accounts, k));
      var _ :- ValidateOwner(a.owner, authority, signers);
      if exists t :: t in newTypes && AccountTypeOf(t) != Account {
        return Err(InvalidState);
      }
      var needed :- TryCalculateAccountLen(AccountBase, a.types + newTypes);
      if Get(accounts, k).dataLen >= needed {
        return Ok(());
      }
      r := GrowAccount(ctx, k, payer, needed);
    }

    method GrowAccount(ctx: Ctx, k: Pubkey, payer: Signer, needed: nat) returns (r: Result<()>)
      requires Get(accounts, k).data.TokenData?
      modifies this
      ensures Computes(r, accounts, L.Grow(old(accounts), ctx, k, payer, needed))
    {
      hide L.SystemTransfer;
      var i := Get(accounts, k);
      var a := i.data.token;
      accounts := accounts[k := i.(dataLen := needed)];
      var reserve := ctx.rent(needed);
      var nativeAmount := if a.native.Some? then a.amount else 0;
      if i.lamports < nativeAmount {
        return Err(Overflow);
      }
      var current := i.lamports - nativeAmount;
      var diff := if reserve > current then reserve - current else 0;
      if diff > 0 {
        var _ :- SystemTransfer(payer, k, diff);
      }
      if a.native.Some? {
        if reserve + a.amount > U64_MAX {
          return Err(Overflow);
        }
        if Get(accounts, k).lamports < reserve + a.amount {
          return Err(InvalidState);
        }
        StoreToken(k, a.(native := Some(reserve)));
      }
      r := Ok(());
    }

    method ProcessCreateNativeMint(ctx: Ctx, payer: Signer) returns (r: Result<()>)
      modifies this
      ensures Computes(r, accounts, L.CreateNativeMint(old(accounts), ctx, payer))
    {
      hide L.SystemTransfer;
      var reserve := ctx.rent(MINT_LEN);
      var have := Get(accounts, NATIVE_MINT).lamports;
      var _ :- SystemTransfer(payer, NATIVE_MINT, if reserve > have then reserve - have else 0);
      var i := Get(accounts, NATIVE_MINT);
      // the system program allocates and assigns only an account of its own without data
      if i.owner != SYSTEM_PROGRAM || i.dataLen != 0 {
        return Err(AlreadyInUse);
      }
      accounts := accounts[NATIVE_MINT := i.(dataLen := MINT_LEN)];
      accounts := accounts[NATIVE_MINT := accounts[NATIVE_MINT].(owner := TOKEN_PROGRAM)];
      StoreMint(NATIVE_MINT, Mint.Mint(None, 0, NATIVE_DECIMALS, None, [], NO_MINT_EXT));
      r := Ok(());
    }

    // ------------------------------------------------------------------ withheld fees

    method StoreWithheld(mintKey: Pubkey, withheld: u64)
      requires Get(accounts, mintKey).data.MintData?
      modifies this
      ensures accounts == old(accounts)[mintKey := L.WithMintWithheld(Get(old(accounts), mintKey), withheld)]
    {
      var m := Get(accounts, mintKey).data.mint;
      StoreMint(mintKey, m.(ext := m.ext.(fee := m.ext.fee.(withheld := withheld))));
    }

    method ProcessWithdrawWithheldFromMint(mintKey: Pubkey, dest: Pubkey, authority: Signer, signers: seq<Signer>)
      returns (r: Result<()>)
      modifies this
      ensures Computes(r, accounts, L.WithdrawWithheldFromMint(old(accounts), mintKey, dest, authority, signers))
    {
      hide L.CheckWithdrawal;
      var d :- L.CheckWithdrawal(accounts, mintKey, dest, authority, signers);
      LedgerGood.WithdrawalChecked(accounts, mintKey, dest, authority, signers);
      var withheld := Get(accounts, mintKey).data.mint.ext.fee.withheld;
      StoreWithheld(mintKey, 0);
      if d.amount + withheld > U64_MAX {
        return Err(Overflow);
      }
      StoreToken(dest, d.(amount := d.amount + withheld));
      r := Ok(());
    }

    /** `harvest_from_account`: the account's withheld tokens, or why it is passed over. */
    method HarvestFromAccount(mintKey: Pubkey, k: Pubkey) returns (r: Result<u64>)
      modifies this
      ensures r.Ok? <==> L.Harvestable(old(accounts), mintKey, k)
      ensures r.Ok? ==> r.value == TokenAt(old(accounts), k).withheld && accounts == L.Emptied(old(accounts), k)
      ensures r.Err? ==> accounts == old(accounts)
    {
      var i := Get(accounts, k);
      if !i.data.TokenData? {
        return Err(InvalidState);
      }
      var a := i.data.token;
      if a.mint != mintKey {
        return Err(MintMismatch);
      }
      if i.owner != TOKEN_PROGRAM || TRANSFER_FEE_AMOUNT !in a.types {
        return Err(InvalidState);
      }
      StoreToken(k, a.(withheld := 0));
      r := Ok(a.withheld);
    }

    method ProcessHarvestWithheldToMint(mintKey: Pubkey, sources: seq<Pubkey>) returns (r: Result<()>)
      modifies this
      ensures Computes(r, accounts, L.HarvestWithheldToMint(old(accounts), mintKey, sources))
    {
      var m :- UnpackMint(Get(accounts, mintKey));
      if TRANSFER_FEE_CONFIG !in m.types {
        return Err(ExtensionNotFound);
      }
      assert sources[..0] == [];
      for n := 0 to |sources|
        invariant Get(accounts, mintKey).data.MintData?
        invariant L.HarvestAll(old(accounts), mintKey, sources[..n]) == Ok(accounts)
      {
        assert sources[..n + 1][..n] == sources[..n];
        var step := HarvestToMint(mintKey, sources[n]);
        if step.Err? {
          HarvestErrorStays(old(accounts), mintKey, sources, n + 1);
          return step;
        }
      }
      assert sources[..|sources|] == sources;
      r := Ok(());
    }

    /** One round of the harvesting loop: an account that cannot be harvested is passed over. */
    method HarvestToMint(mintKey: Pubkey, k: Pubkey) returns (r: Result<()>)
      requires Get(accounts, mintKey).data.MintData?
      modifies this
      ensures Computes(r, accounts, L.HarvestOne(old(accounts), mintKey, k))
    {
      var harvested := HarvestFromAccount(mintKey, k);
      if harvested.Ok? {
        var total := Get(accounts, mintKey).data.mint.ext.fee.withheld + harvested.value;
        if total > U64_MAX {
          return Err(Overflow);
        }
        StoreWithheld(mintKey, total);
      }
      r := Ok(());
    }

    method ProcessWithdrawWithheldFromAccounts(mintKey: Pubkey, dest: Pubkey, authority: Signer, signers: seq<Signer>,
                                               sources: seq<Pubkey>) returns (r: Result<()>)
      modifies this
      ensures Computes(r, accounts,
                       L.WithdrawWithheldFromAccounts(old(accounts), mintKey, dest, authority, signers, sources))
    {
      hide L.CheckWithdrawal;
      var _ :- L.CheckWithdrawal(accounts, mintKey, dest, authority, signers);
      LedgerGood.WithdrawalChecked(accounts, mintKey, dest, authority, signers);
      assert sources[..0] == [];
      for n := 0 to |sources|
        invariant Get(accounts, dest).data.TokenData?
        invariant L.WithdrawAll(old(accounts), mintKey, dest, sources[..n]) == Ok(accounts)
      {
        assert sources[..n + 1][..n] == sources[..n];
        var step := WithdrawFromAccount(mintKey, dest, sources[n]);
        if step.Err? {
          WithdrawErrorStays(old(accounts), mintKey, dest, sources, n + 1);
          return step;
        }
      }
      assert sources[..|sources|] == sources;
      r := Ok(());
    }

    /** One round of the withdrawing loop; the destination's own withheld tokens are taken without a second borrow. */
    method WithdrawFromAccount(mintKey: Pubkey, dest: Pubkey, k: Pubkey) returns (r: Result<()>)
      requires Get(accounts, dest).data.TokenData?
      modifies this
      ensures Computes(r, accounts, L.WithdrawOne(old(accounts), mintKey, dest, k))
    {
      var d := Get(accounts, dest).data.token;
      if k == dest {
        if TRANSFER_FEE_AMOUNT !in d.types {
          return Err(InvalidState);
        }
        StoreToken(dest, d.(withheld := 0));
        if d.amount + d.withheld > U64_MAX {
          return Err(Overflow);
        }
        StoreToken(dest, d.(withheld := 0, amount := d.amount + d.withheld));
      } else {
        var harvested := HarvestFromAccount(mintKey, k);
        if harvested.Ok? {
          if d.amount + harvested.value > U64_MAX {
            return Err(Overflow);
          }
          StoreToken(dest, d.(amount := d.amount + harvested.value));
        }
      }
      r := Ok(());
    }

    // ------------------------------------------------------------------ one instruction

    method ExecuteTokens(ctx: Ctx, i: Instr) returns (r: Result<()>)
      requires MovesTokens(i)
      modifies this
      ensures Computes(r, accounts, Process(old(accounts), ctx, i))
    {
      hide Computes, L.Transfer, L.MintTo, L.Burn, L.CloseAccount;
      match i
      case Transfer(k, c, d, a, ss, n, f) => r := ProcessTransfer(ctx, k, c, d, a, ss, n, f);
      case MintTo(m, d, x, a, ss, n) => r := ProcessMintTo(m, d, x, a, ss, n);
      case Burn(k, m, x, a, ss, n) => r := ProcessBurn(ctx, k, m, x, a, ss, n);
      case CloseAccount(k, d, a, ss) => r := ProcessCloseAccount(ctx, k, d, a, ss);
    }

    method ExecuteSetup(ctx: Ctx, i: Instr) returns (r: Result<()>)
      requires SetsUpInSteps(i)
      modifies this
      ensures Computes(r, accounts, Process(old(accounts), ctx, i))
    {
      hide Computes, L.InitializeAccount, L.InitializeMultisig, L.WithdrawExcessLamports, L.Reallocate,
           L.CreateNativeMint;
      match i
      case InitializeAccount(k, m, o) => r := ProcessInitializeAccount(ctx, k, m, o);
      case InitializeMultisig(k, m, keys) => r := ProcessInitializeMultisig(ctx, k, m, keys);
      case WithdrawExcessLamports(k, d, a, ss) => r := ProcessWithdrawExcessLamports(ctx, k, d, a, ss);
      case Reallocate(k, p, a, ss, ts) => r := ProcessReallocate(ctx, k, p, a, ss, ts);
      case CreateNativeMint(p) => r := ProcessCreateNativeMint(ctx, p);
    }

    method ExecuteWithheld(ctx: Ctx, i: Instr) returns (r: Result<()>)
      requires MovesWithheld(i)
      modifies this
      ensures Computes(r, accounts, Process(old(accounts), ctx, i))
    {
      hide Computes, L.WithdrawWithheldFromMint, L.HarvestWithheldToMint, L.WithdrawWithheldFromAccounts;
      match i
      case WithdrawWithheldFromMint(m, d, a, ss) => r := ProcessWithdrawWithheldFromMint(m, d, a, ss);
      case HarvestWithheldToMint(m, ks) => r := ProcessHarvestWithheldToMint(m, ks);
      case WithdrawWithheldFromAccounts(m, d, a, ss, ks) => r := ProcessWithdrawWithheldFromAccounts(m, d, a, ss, ks);
    }

    /** `Processor::process`, behind the decoding of the instruction; a single write is taken from its function. */
    method Execute(ctx: Ctx, i: Instr) returns (r: Result<()>)
      modifies this
      ensures Computes(r, accounts, Process(old(accounts), ctx, i))
    {
      hide Process;
      if MovesTokens(i) {
        r := ExecuteTokens(ctx, i);
      } else if SetsUpInSteps(i) {
        r := ExecuteSetup(ctx, i);
      } else if MovesWithheld(i) {
        r := ExecuteWithheld(ctx, i);
      } else {
        var after :- Process(accounts, ctx, i);
        accounts := after;
        r := Ok(());
      }
    }

    /** The runtime around one call: the changes stay only when the instruction succeeds and breaks no rule. */
    method Submit(ctx: Ctx, i: Instr) returns (committed: bool)
      modifies this
      ensures committed == Commits(old(accounts), ctx, i)
      ensures accounts == Next(old(accounts), Call(ctx, i))
      ensures old(Inv(accounts)) ==> Inv(accounts)
    {
      hide Process, Inv;
      var before := accounts;
      var r := Execute(ctx, i);
      committed := r.Ok? && RuntimeAccepts(before, accounts, i);
      if !committed {
        accounts := before;
      }
      if Inv(before) {
        LedgerBalance.InvNext(before, Call(ctx, i));
      }
    }
  }

  /** Storing the source before the move makes no difference to it. */
  lemma MoveAfterDebit(s: State, ctx: Ctx, source: Pubkey, a: Token, dest: Pubkey, amount: u64, fee: u64,
                       hook: Option<Pubkey>)
    requires source != dest
    ensures L.Move(s[source := L.WithToken(Get(s, source), a)], ctx, source, a, dest, amount, fee, hook)
            == L.Move(s, ctx, source, a, dest, amount, fee, hook)
  {
    hide L.Credit, L.CheckHook;
    var s' := s[source := L.WithToken(Get(s, source), a)];
    if L.Move(s, ctx, source, a, dest, amount, fee, hook).Ok? {
      assert L.Move(s', ctx, source, a, dest, amount, fee, hook).value ==
          L.Move(s, ctx, source, a, dest, amount, fee, hook).value;
    }
  }

  /** A charge for a burn changes only the delegation. */
  lemma DebitKeeps(s: State, ctx: Ctx, a: Token, pd: Option<Pubkey>, authority: Signer, signers: seq<Signer>,
                   amount: u64, blocked: Error)
    requires L.AuthorizeDebit(s, ctx, a, pd, authority, signers, amount, true, blocked).Ok?
    ensures L.AuthorizeDebit(s, ctx, a, pd, authority, signers, amount, true, blocked).value.amount == a.amount
  {
    hide Multisigs.ValidateOwner;
  }

  /** A self-transfer charges no allowance. */
  lemma SelfAuthorized(s: State, ctx: Ctx, k: Pubkey, pd: Option<Pubkey>, authority: Signer, signers: seq<Signer>,
                       amount: u64)
    requires Get(s, k).data.TokenData?
    requires L.AuthorizeDebit(s, ctx, Get(s, k).data.token, pd, authority, signers, amount, false,
                              CpiGuardTransferBlocked).Ok?
    ensures s[k := L.WithToken(Get(s, k),
              L.AuthorizeDebit(s, ctx, Get(s, k).data.token, pd, authority, signers, amount, false,
                               CpiGuardTransferBlocked).value)] == s
  {
    hide Multisigs.ValidateOwner;
  }
}
