# A verified model of the Token-2022 program

Token-2022 keeps mints, token accounts and multisigs in the accounts of a Solana ledger. Each account is a base state
in fixed bytes, optionally followed by a list of extensions. This project models the program in Dafny and proves what
it guarantees. `dafny verify dfyconfig.toml` checks everything.

**Bytes.** `Tlv` and `TlvOps` read the extension area as a list of (type, value) entries: the two scanners, `alloc`,
`realloc` and the initialisers are functions on byte sequences with array methods beside them, and every one of them
is proved to be an operation on the list. `ExtensionTypes` holds the length calculators, `TlvAccount` the account around
the area (unpacking, account type, growing and shrinking an account to store an extension), and `InitAll` the promise
of the calculated length. `BaseState`, `Instructions` and `UiAmount` are the codecs: base states against their
zero-copy views, the two instruction decoders, and the decimal printer and parser. `TransferFees` is the fee
arithmetic.

**The ledger.** `LedgerState` is a map from keys to accounts, with the extension area kept as the list of types and the
values the ledger needs. `LedgerBytes` proves for initialising an extension and for growing an account that the list is
what the bytes hold, and `AccountBytes` reads the bytes of any account as the ledger's record and proves that
unpacking, storing a record or the value of an extension, and growth mean the same on both. `Multisigs` is authority
checking. `Ledger` gives each instruction as a function from the state before to the state after or an error, and
`Processor` holds those that change the accounts in several steps in the form of the source: a class whose methods walk
through their checks, loop and update the accounts in place, each proved to compute its function. After an error the
accounts may be half changed; `Submit` restores them, as the runtime does.

**Runs.** `LedgerRuns` mixes calls with whatever other programs may do in between. A call commits only if it succeeds
and the runtime accepts its changes: the program changes and debits only accounts it owns, apart from what the system
program does for it. An outside step adds lamports to any account, or does anything at all to an account the program
does not own, except that an account handed over to the program is zeroed. The native mint is a derived address, so
outside steps only deposit to it. A run starts when the program owns no account. `LedgerGood`, `LedgerBalance` and
`LedgerSums` prove the invariant over every run (supply equals holdings, native accounts are backed, no delegate
without allowance), `LedgerTokens` proves which step may change what, and `LedgerBounds`, `LedgerFees`,
`LedgerTheorems`, `LedgerSetup` and `LedgerConsent` draw the conclusions. `LedgerExample` follows one run step by step.

**Outcomes.** Beside what runs keep stands what one call does. `LedgerConditions` and `LedgerWithheld` state for every
instruction, in terms a caller can check and in no order, exactly when it succeeds; in reachable states the arithmetic
checks that cannot fail are gone from these conditions. `LedgerEffects` states every record a success leaves, and what
follows over runs for frozen accounts, `LedgerRoom` that a reallocation makes the room it was asked for, and
`LedgerReasons` that a failure names its true reason.

**Signatures.** `validate_owner` treats any account of the program with a multisig's length as a multisig and never
looks at whether it was initialised. Zeroed, it reads as no signers and a threshold of zero, so such an authority passes
with nobody signing. `LedgerSigners` proves that this is the only way to pass without a signature
(`UnsignedPassesIff`), and that initialised multisigs and wallets kept out of the program never come into that state.
The theorems of `LedgerConsent` speak of real signatures and name this exception where it applies.

Where code and documentation disagree the model follows the code:

- `calculate_pre_fee_amount` documents an amount "that will result in" the net amount and 0 at a rate of 100%. At
  100% an amount often exists all the same, because the fee is capped; the code returns 0, and `PreFeeExactIff` states
  exactly when its answer is right, `PreFeeLostAtFullRate` an input where it is not.
- `alloc` writes the type before it finds that the length does not fit in 16 bits, so this one failure changes the
  buffer. `AllocMeaning` states exactly when.
- Pod decoding accepts only exact lengths for instructions without a trailing option, where
  `TokenInstruction::unpack` ignores trailing bytes. `DecodersAgree` states exactly when both accept.
- Multisig initialisation truncates the number of signers to a byte before checking it, and then stops at the twelfth
  signer it stores; the model keeps both.

## Model

| member | source | states |
|---|---|---|
| Tlv.ScanEncode | programs/src/extension/mod.rs:195-237 | scanning the layout of any list of entries, followed by anything that stops the scan, returns the list |
| Tlv.ScanSound | programs/src/extension/mod.rs:195-237 | a buffer that scans starts with exactly the layout of what was scanned, and then with bytes that stop a scan |
| Tlv.GetTlvDataInfo | programs/src/extension/mod.rs:195-237 | the scanning loop returns the scanned types and the number of bytes they use, or the scan's error |
| Tlv.GetExtensionIndices | programs/src/extension/mod.rs:142-178 | the searching loop returns the position the search function defines, or its error |
| Tlv.FindRefines | programs/src/extension/mod.rs:142-178 | on a buffer that scans, the byte search is the search in the list: same error, or the offset of the entry found or of the free slot |
| Tlv.FindInListMeaning | programs/src/extension/mod.rs:142-178 | the search in the list finds the first entry of the type unless an entry of the other account kind comes first; otherwise the free slot or an error |
| Tlv.ScannersAgree | programs/src/extension/mod.rs:327-344 | when a buffer scans and holds entries of one kind only, looking up a type of that kind succeeds if and only if the scan lists it, and yields the first such entry's value |
| Tlv.ReadBack | programs/src/extension/mod.rs:327-344 | a listed type reads back its first value when only entries of its kind come before it |
| Tlv.EntryInPlace | programs/src/extension/mod.rs:106-114 | type, length and value of each entry stand at the offsets computed from the entries before it |
| TlvOps.AllocInPlace | programs/src/extension/mod.rs:691-734 | the in-place allocation computes the allocation function on the extension area and leaves the rest of the account alone |
| TlvOps.AllocMeaning | programs/src/extension/mod.rs:691-734 | on a well-formed buffer allocation succeeds if and only if there is room or an entry of the same length to overwrite, changes only that slot's header, and a failure changes the buffer only for a length beyond 16 bits |
| TlvOps.InitInPlace | programs/src/extension/mod.rs:596-605 | initialisation in place computes allocation followed by writing the value |
| TlvOps.InitRefines | programs/src/extension/mod.rs:596-605 | storing an extension is storing the entry in the list: replaced where it stood or appended, all others unchanged, the tail still zero |
| TlvOps.ReallocInPlace | programs/src/extension/mod.rs:629-674 | reallocation in place (moving the entries behind, zeroing what is freed or gained) computes the reallocation function |
| TlvOps.ReallocRefines | programs/src/extension/mod.rs:629-674 | reallocation cuts or zero-extends exactly the value of the type's entry, keeps every other entry and their order, moves the used length by the difference, keeps the tail zero, and leaves the buffer unchanged on every error; it succeeds if and only if the entry is reachable and the new length fits |
| ExtensionTypes.TotalTlvLen | programs/src/extension/mod.rs:1203-1212 | the deduplication and summation loops return the total length of the distinct types, or an error if a type has no fixed size |
| ExtensionTypes.Dedupe | programs/src/extension/mod.rs:1203-1212 | deduplication keeps the same set of types and no duplicates |
| ExtensionTypes.SumIgnoresOrder | programs/src/extension/mod.rs:1203-1212 | the total does not depend on the order of the types |
| ExtensionTypes.CalculatedLenIsNotMultisig | programs/src/extension/mod.rs:118-124 | no calculated account length equals the length of a multisig |
| ExtensionTypes.PaddedByOneType | programs/src/extension/mod.rs:118-124 | a length that would be a multisig's grows by exactly the bytes of one extension type, any other stays |
| ExtensionTypes.KindsOfTypes | programs/src/extension/mod.rs:1230-1263 | exactly eight types belong to token accounts, all others but the first to mints |
| ExtensionTypes.LengthsOfFields | programs/src/extension/mod.rs:1147-1193 | the length of each fixed-size extension is the sum of the fields it declares |
| ExtensionTypes.RequiredInitAccountExtensions | programs/src/extension/mod.rs:1267-1289 | the extensions required of an account: fee amount if and only if the mint charges fees, hook account if and only if it has a hook, both pinning extensions if and only if it is non-transferable; all are account extensions of fixed size |
| ExtensionTypes.RequiredInOrder | programs/src/extension/mod.rs:1267-1289 | the requirements stand in the order of the mint's extensions: those of a list are those of its parts, one after the other, and non-transferability puts its pinned account before its immutable owner |
| InitAll.AnyOrderFits | programs/src/extension/mod.rs:1217-1227 | a zeroed area of the calculated length accepts every listed fixed-size extension in any order and with repetitions; each reads back its own value and the length in use is the calculated one |
| TlvAccount.SetAccountTypeInPlace | programs/src/extension/mod.rs:999-1017 | setting the account type writes that byte only, or returns the error and changes nothing |
| TlvAccount.NewLenMeaning | programs/src/extension/mod.rs:372-392 | the new account length is the length of the list after storing the value, adjusted so that it is never a multisig's |
| TlvAccount.AllocAndSerializeInPlace | programs/src/extension/mod.rs:1401-1428 | the in-place form computes the storing function on the account's data, growing the account when needed |
| TlvAccount.AllocAndSerializeRefines | programs/src/extension/mod.rs:1401-1428 | storing succeeds if and only if the list operation can; then the value reads back, the base state and all other entries are unchanged, and the account has neither shrunk nor reached a multisig's length |
| TlvAccount.AllocAndSerializeVariableLenInPlace | programs/src/extension/mod.rs:1438-1497 | the variable-length form in place computes its storing function, growing before or shrinking after the change |
| TlvAccount.AllocAndSerializeVariableLenRefines | programs/src/extension/mod.rs:1438-1497 | the same for variable-length values, and the data length afterwards is exactly the length the account needs, whether it grew or shrank |
| TlvAccount.LenOfStored | programs/src/extension/mod.rs:428-438 | cutting an account to the length of its list keeps the list, and the length it then needs is its own |
| BaseState.MintRoundTrip | programs/src/state.rs:51-96 | unpacking what was packed returns the mint, whatever the destination held before |
| BaseState.MintFields | programs/src/state.rs:74-95 | where each field of a mint is stored |
| BaseState.MintRepack | programs/src/state.rs:51-96 | packing what was unpacked over the same bytes restores them, stale bytes of absent options included |
| BaseState.MintUnpacksIff | programs/src/state.rs:53-73 | a mint unpacks if and only if both option tags and the flag are legal |
| BaseState.PackMintInto | programs/src/state.rs:74-95 | packing into a buffer writes exactly the packed mint |
| BaseState.TokenFields | programs/src/state.rs:166-196 | where each field of an account is stored |
| BaseState.TokenRoundTrip | programs/src/state.rs:148-197 | unpacking what was packed returns the account, whatever the destination held before |
| BaseState.TokenRepack | programs/src/state.rs:148-197 | packing what was unpacked over the same bytes restores them |
| BaseState.TokenUnpacksIff | programs/src/state.rs:150-165 | an account unpacks if and only if its three option tags and its state byte are legal |
| BaseState.PackTokenInto | programs/src/state.rs:166-196 | packing into a buffer writes exactly the packed account |
| BaseState.MultisigRoundTrip | programs/src/state.rs:237-270 | multisig packing and unpacking invert each other in both directions |
| BaseState.MultisigFields | programs/src/state.rs:258-269 | where each field of a multisig, and each of its signers, is stored |
| BaseState.PackMultisigInto | programs/src/state.rs:258-269 | the signer loop writes exactly the packed multisig |
| BaseState.UnpackMultisigFrom | programs/src/state.rs:239-257 | the signer loop reads exactly the unpacked multisig |
| BaseState.PodOptionAgrees | programs/src/pod.rs:166-222 | the zero-copy option agrees with the decoded one on every legal tag, for presence, default and error; on an illegal tag the decoder fails while the view is neither present nor absent |
| BaseState.PackedImpliesPod | programs/src/extension/mod.rs:476-493 | whatever unpacks as a packed state unpacks as a zero-copy state with the same extension area |
| BaseState.StatesAreDistinct | programs/src/extension/mod.rs:296-314 | no bytes unpack both as an initialised mint and as an initialised account, and nothing of a multisig's length unpacks as either |
| BaseState.ValidAccountDataIff | programs/src/state.rs:320-327 | account data is valid if and only if it unpacks as an account, or has the bare typed length with an initialised base |
| Instructions.UnpackPack | programs/src/instruction.rs:715-1023 | unpacking a packed instruction returns it, for every instruction and extension lists of any length |
| Instructions.PackUnpack | programs/src/instruction.rs:715-1023 | packing what was unpacked gives a prefix of the input |
| Instructions.TagsInOrder | programs/src/instruction.rs:50-711 | the first byte of a packed instruction is its place among the 42 in the order they are declared |
| Instructions.AuthorityCodesInOrder | programs/src/instruction.rs:1121-1139 | the code of an authority type is its place in the declared order |
| Instructions.PackOnto | programs/src/instruction.rs:856-1023 | pushing the tag and then one field after another, extension types in a loop, yields the packed instruction |
| Instructions.UnpackTypesLoop | programs/src/instruction.rs:805-811 | the chunk loop reads the list of extension types or fails on an odd length or unknown type |
| Instructions.DecodersAgree | programs/src/pod_instruction.rs:119-147 | the zero-copy decoding accepts an instruction if and only if the ordinary one does and, without a trailing option, the length is exact; then both read the same fields |
| UiAmount.PrintedIff | programs/src/lib.rs:50-61 | with decimals, the printed string is a whole part, a point and a fraction if and only if the whole part has no superfluous zero, the fraction has as many digits as there are decimals, and all digits together are the amount |
| UiAmount.PrintedWholeIff | programs/src/lib.rs:50-61 | without decimals, it is the one string of digits without superfluous zeros whose value is the amount |
| UiAmount.TrimmedIff | programs/src/lib.rs:65-72 | the trimmed string is exactly the one way to write the amount with no superfluous zero at either end and no bare point |
| UiAmount.TryUiAmountIntoAmount | programs/src/lib.rs:76-98 | the parser's loop computes the parsing function |
| UiAmount.ParseAny | programs/src/lib.rs:76-98 | on any string with at most one point the parser returns the digits, behind an optional plus sign, scaled by the missing decimals, or an error exactly if nothing is left, the trimmed fraction is too long, something else than digits occurs, or the number does not fit |
| UiAmount.TwoPointsRefused | programs/src/lib.rs:76-98 | a string with a second point is refused |
| UiAmount.UiRoundTrip | programs/src/lib.rs:50-98 | parsing the padded or the trimmed string returns the amount, for every amount and number of decimals |
| TransferFees.FeeMeaning | programs/src/extension/transfer_fee/mod.rs:59-76 | with a valid rate the fee is defined, at most the amount and the maximum, and what remains is the larger of the rounded-down rest and the amount less the maximum |
| TransferFees.PreFeeIsLeast | programs/src/extension/transfer_fee/mod.rs:90-109 | below a rate of 100% the inversion returns the least amount that leaves the given one, or none exactly when no 64-bit amount does |
| TransferFees.PreFeeExactIff | programs/src/extension/transfer_fee/mod.rs:90-109 | the amount returned leaves the given one if and only if the rate is below 100% or the amount is zero |
| TransferFees.PreFeeLostAtFullRate | programs/src/extension/transfer_fee/mod.rs:90-109 | an input at a rate of 100% for which the right amount exists and another one is returned |
| TransferFees.InverseFeeClose | programs/src/extension/transfer_fee/mod.rs:112-115 | the fee recovered from what is left is at most the fee charged and within the rounding gap of it |
| Multisigs.CheckMultisig | programs/src/processor.rs:1806-1824 | the nested loops over signers and positions succeed exactly when the multisig authorises: at least m of the first n positions hold a listed key and each such key's first occurrence is a signer |
| Multisigs.ThresholdAboveNeverMet | programs/src/processor.rs:1808-1822 | the counter never exceeds n, so a threshold above n is never met |
| Multisigs.AuthorizedIsSigned | programs/src/processor.rs:1806-1824 | an authorised multisig has real signatures for at least m of its first n positions |
| LedgerSigners.AgreementIsSigned | programs/src/processor.rs:1792-1829 | behind every check that passes stands a real signature of the key, or of at least m and at least one of the positions of the multisig, unless the authority's account is an unclaimed one |
| LedgerSigners.AgreesIff | programs/src/processor.rs:1792-1829 | the check of an authority passes if and only if it is the one expected and signed: with enough positions if it is a multisig, without any exactly if it is unclaimed |
| LedgerSigners.UnsignedPassesIff | programs/src/processor.rs:1802-1824 | when nobody signs, the check passes if and only if the authority is an account of the program with a multisig's length that is not an initialised multisig |
| LedgerSigners.UnclaimedPassesUnsigned | programs/src/processor.rs:1802-1824 | a zeroed account of that length, handed over to the program, passes without any signer |
| LedgerSigners.MultisigStays | programs/src/processor.rs:231-270 | over every run an initialised multisig keeps its signers and its threshold |
| LedgerSigners.StaysClaimed | programs/src/processor.rs:231-270 | an initialised multisig, and an account that is not handed over to the program, is never unclaimed in a run |
| LedgerState.InitExtensions | programs/src/extension/mod.rs:742-771 | initialising the required extensions keeps those held, adds all required ones and nothing else |
| LedgerBytes.InitExtensionOnBytes | programs/src/extension/mod.rs:596-605 | initialising an extension on bytes succeeds exactly when the ledger's list operation does, with the list it computes |
| LedgerBytes.GrowthOnBytes | programs/src/extension/reallocate.rs:69-99 | growing the bytes of an account and setting its type keeps the list of extensions and the base state |
| LedgerBytes.RoomIsEnough | programs/src/extension/mod.rs:1203-1227 | a list of types the ledger has room for is represented by a byte area of the account's length |
| AccountBytes.UnpackTokenAgrees | programs/src/extension/mod.rs:891-904 | whatever record the bytes of an account hold, unpacking it as a token account on the ledger is unpacking its bytes: same record, same error |
| AccountBytes.UnpackMintAgrees | programs/src/extension/mod.rs:891-904 | the same for a mint; on the bytes of a token account both fail |
| AccountBytes.UnpackUninitializedAgrees | programs/src/extension/mod.rs:911-926 | an account without a base state is read as not initialised on the ledger exactly when its bytes are, with the same extension types and the same errors |
| AccountBytes.StoredTokenReads | programs/src/state.rs:166-196 | packing any initialised account over any bytes, with or without an extension area behind it, makes the account the ledger reads |
| AccountBytes.StoredMintReads | programs/src/state.rs:74-95 | the same for a mint, with the padding in front of its account type |
| AccountBytes.StoredFieldReads | programs/src/extension/mod.rs:596-605 | storing withheld tokens, the guard or the memo flag in the extension area of an account is exactly the ledger's update of that field and of the list of types |
| AccountBytes.StoredMintValueReads | programs/src/extension/mod.rs:596-605 | storing a value in the extension area of a mint keeps the record and puts the entry into the list the ledger reads |
| AccountBytes.StoredFeeReads | programs/src/extension/mod.rs:596-605 | storing the fee configuration replaces exactly the fee the ledger reads: both authorities, the withheld tokens and both rates |
| AccountBytes.GrowthReads | programs/src/extension/reallocate.rs:69-99 | growing an account and setting its type changes nothing the ledger reads from it but its length |
| LedgerSetup.MintCarriesSettings | programs/src/processor.rs:65-108 | what an instruction initialises on an empty mint account (close authority, permanent delegate, default state, fee, hook, pointers) is what the mint carries once initialised any run later, for every epoch and amount in the case of fees; other extensions may be initialised in between, only the same one may not; the new mint has no supply and the authorities named |
| LedgerSetup.StoredBy | programs/src/processor.rs:1282-1296 | initialising an extension of a mint adds its type once, sets its own values and keeps everything else |
| LedgerSetup.MintTakesOver | programs/src/processor.rs:65-108 | a new mint is exactly as named, with no supply and the extensions and values its account held |
| LedgerSetup.ImmutableOwnerStays | programs/src/processor.rs:658-660 | over every run that does not close it, an account with an immutable owner keeps its owner |
| LedgerSetup.ImmutableOwnerIsCarried | programs/src/processor.rs:1325-1334 | an account made immutable and initialised any run later belongs to the owner named at its initialisation over every further run that does not close it |
| LedgerSetup.DefaultStateApplies | programs/src/extension/default_account_state/processor.rs:45-76 | any run after an update of the default state a new account of the mint starts in it, unless the mint is updated again or closed in between |
| LedgerSetup.AccountsFit | programs/src/extension/mod.rs:1217-1227 | over every run a mint has exactly the length calculated for its extensions, which may be combined; a token account has room for its own; a multisig has its thresholds in range |
| Processor.Bank.ValidateOwner | programs/src/processor.rs:1792-1829 | computes the authority check: same key, and a satisfied multisig or a signature |
| Processor.Bank.AuthorizeDebit | programs/src/processor.rs:381-434 | the choice between permanent delegate, delegate and owner, lowering the allowance in place, computes its function |
| Processor.Bank.ProcessTransfer | programs/src/processor.rs:285-533 | computes the transfer function: same error or same new state, although allowance and balances are changed before later checks |
| Processor.Bank.MoveTokens | programs/src/processor.rs:449-530 | the tail of a transfer: both balances, the withheld fee, the lamports of native accounts |
| Processor.Bank.InitRequired | programs/src/processor.rs:177-179 | the loop over required extensions computes their initialisation in order, or its first error |
| Processor.Bank.ProcessInitializeAccount | programs/src/processor.rs:130-211 | computes the initialisation of an account, native ones with reserve and wrapped lamports |
| Processor.Bank.ProcessInitializeMultisig | programs/src/processor.rs:231-270 | the loop storing signers computes the initialisation of a multisig |
| Processor.Bank.ProcessMintTo | programs/src/processor.rs:908-984 | computes the minting |
| Processor.Bank.ProcessBurn | programs/src/processor.rs:987-1101 | computes the burn |
| Processor.Bank.ProcessCloseAccount | programs/src/processor.rs:1104-1196 | computes the closing of an account or a mint, lamports to the destination and data deleted |
| Processor.Bank.ProcessWithdrawExcessLamports | programs/src/processor.rs:1456-1525 | computes the withdrawal of lamports above the reserve |
| Processor.Bank.GrowAccount | programs/src/extension/reallocate.rs:69-113 | growing, paying the missing reserve and re-recording it for native accounts |
| Processor.Bank.ProcessCreateNativeMint | programs/src/processor.rs:1379-1421 | computes the creation of the native mint |
| Processor.Bank.ProcessWithdrawWithheldFromMint | programs/src/extension/transfer_fee/processor.rs:114-158 | computes the withdrawal from the mint |
| Processor.Bank.HarvestFromAccount | programs/src/extension/transfer_fee/processor.rs:160-178 | takes the withheld tokens exactly from the mint's own fee-bearing accounts, and leaves any other account alone |
| Processor.Bank.ProcessHarvestWithheldToMint | programs/src/extension/transfer_fee/processor.rs:180-204 | the harvesting loop computes its function for any list of accounts, repetitions included |
| Processor.Bank.ProcessWithdrawWithheldFromAccounts | programs/src/extension/transfer_fee/processor.rs:206-275 | the withdrawing loop computes its function, the destination among the sources included |
| Processor.Bank.Execute | programs/src/processor.rs:1528-1789 | dispatching reaches the processing function: every instruction that writes in several steps through its own method, a single write taken from the function itself |
| Processor.Bank.Submit | programs/src/processor.rs:1528-1789 | one call is one step of a run: committed if and only if it succeeds within the runtime's rules, rolled back otherwise, and the ledger's invariant is kept |
| LedgerGood.SingleTarget | programs/src/processor.rs:1528-1789 | the instructions with one target change no other account, and no lamports at all |
| LedgerGood.TransferParts | programs/src/processor.rs:285-533 | what a successful transfer checked and the exact state it leaves: source, destination, withheld fee and lamports, nothing else |
| LedgerGood.BurnParts | programs/src/processor.rs:987-1101 | what a successful burn checked and the exact state it leaves |
| LedgerGood.GoodNext | programs/src/processor.rs:1528-1789 | every step keeps every account good: native exactly with the native mint, backed and never frozen; no delegate without allowance; legal fee rates; data lengths that fit the extensions; thresholds of multisigs in range |
| LedgerBalance.BalanceNext | programs/src/processor.rs:1528-1789 | every step keeps each mint's supply equal to the tokens and withheld fees of its accounts and itself |
| LedgerBalance.InvNext | programs/src/processor.rs:1528-1789 | every step keeps the ledger's invariant |
| LedgerBalance.SupplyConserved | programs/src/processor.rs:1528-1789 | over every run supply is conserved for every mint but the native one, through self-transfers, fees, harvesting, closes, and mints closed and created anew |
| LedgerBounds.TransferNeverOverflows | programs/src/processor.rs:470-484 | in a reachable state no transfer from a non-native account overflows: not the fee, the credit nor the withheld amount |
| LedgerBounds.BurnNeverOverflows | programs/src/processor.rs:1091-1098 | a burn never takes the supply below zero |
| LedgerBounds.MintToOverflowsIff | programs/src/processor.rs:973-981 | an otherwise valid minting fails if and only if the new supply exceeds 64 bits, and then with the overflow error |
| LedgerBounds.HarvestNeverOverflows | programs/src/extension/transfer_fee/processor.rs:180-204 | harvesting never overflows, whatever accounts are named |
| LedgerBounds.WithdrawNeverOverflows | programs/src/extension/transfer_fee/processor.rs:244-272 | withdrawing from accounts never overflows the destination |
| LedgerBounds.WithdrawFromMintNeverOverflows | programs/src/extension/transfer_fee/processor.rs:150-155 | withdrawing from the mint never overflows the destination |
| LedgerBounds.NativeBacked | programs/src/processor.rs:195-206 | over every run a native account's lamports cover its recorded reserve and its tokens |
| LedgerBounds.SyncNeverFails | programs/src/processor.rs:1251-1278 | synchronising a reachable native account succeeds, lowers nothing, and makes tokens plus reserve equal to the lamports |
| LedgerBounds.GrowFailsOnlyUnpaid | programs/src/extension/reallocate.rs:76-113 | growing a reachable account fails if and only if the missing reserve cannot be paid: the sanity checks are dead |
| LedgerBounds.LamportsConserved | programs/src/processor.rs:1528-1789 | every successful instruction keeps the total of lamports over all accounts |
| LedgerTokens.TokenStep | programs/src/processor.rs:1528-1789 | a successful instruction closes a token account, or changes it only in the ways the evolution relation lists |
| LedgerTokens.MintStep | programs/src/processor.rs:1528-1789 | a successful instruction closes a mint at zero supply, or changes it only in the ways the relation lists |
| LedgerTokens.SetMintAuthorityMeans | programs/src/processor.rs:711-899 | setting an authority of a mint needs one of that kind, which agrees, and replaces exactly that one, of thirteen kinds in the base state or an extension |
| LedgerTheorems.DelegateBudget | programs/src/processor.rs:381-434 | from an approval on, what the balance lost on the delegate's word is the approved amount less the allowance left, and the delegate is dropped exactly when all is spent |
| LedgerTheorems.RevokedStays | programs/src/processor.rs:596-627 | once an account has no delegate, nothing leaves it on a delegate's word until the next approval |
| LedgerTheorems.SelfTransferIsFree | programs/src/processor.rs:442-446 | a self-transfer changes nothing and charges no allowance |
| LedgerTheorems.LockedOwnerFixed | programs/src/processor.rs:662-668 | while the guard is on, the owner never changes |
| LedgerTheorems.GuardedAlong | programs/src/processor.rs:428-432 | a run of calls from inside other programs keeps a locked account locked, with its owner and mint; adds no delegate and no close authority; and lowers the balance by no more than the allowance granted before, unless the mint has a permanent delegate (one removed before does not count) or nobody owns the account |
| LedgerTheorems.NoToggleInCpi | programs/src/extension/cpi_guard/processor.rs:44-46 | the guard is never toggled from inside another program |
| LedgerTheorems.CpiClosePaysOwner | programs/src/processor.rs:1128-1139 | closing a locked account from inside another program pays its owner all its lamports and nobody else |
| LedgerTheorems.NewOwnerStartsClean | programs/src/processor.rs:670-685 | the owner changes only by a change of authority, which installs the owner it names, without a delegate, on a native account without a close authority, and changes nothing else |
| LedgerTheorems.FrozenIsolated | programs/src/processor.rs:309-311 | while it is neither thawed nor closed, a frozen account keeps amount, owner, delegation and close authority |
| LedgerTheorems.LeavingFrozen | programs/src/processor.rs:1200-1248 | a frozen account leaves that state if and only if it is toggled or closed: thawed by its mint's freeze authority, and then as it was but for the flag, or closed empty |
| LedgerTheorems.RemovedAuthorityStays | programs/src/processor.rs:711-899 | an authority of any kind that a mint does not have it never gets again, in runs that do not close it |
| LedgerTheorems.FixedSupplyStays | programs/src/processor.rs:712-727 | without a mint authority a mint never gets one back and its supply never rises, in runs that do not close it |
| LedgerTheorems.NoFreezeStays | programs/src/processor.rs:728-743 | without a freeze authority a mint never gets one back, in runs that do not close it |
| LedgerTheorems.FrozenFlagFixed | programs/src/processor.rs:1227-1245 | then no account of the mint switches between frozen and initialised |
| LedgerTheorems.NewToken | programs/src/processor.rs:130-211 | only account initialisation makes a token account, of an existing mint and with all extensions that mint requires |
| LedgerTheorems.AccountsEquipped | programs/src/extension/mod.rs:1267-1289 | over every run that does not close the mint, every account of it carries all extensions the mint requires |
| LedgerTheorems.NonTransferableStaysPut | programs/src/processor.rs:316-321 | over every run that does not close a non-transferable mint, no transfer from any of its accounts succeeds and no owner changes |
| LedgerTheorems.MemoEnforced | programs/src/processor.rs:460-462 | an account that requires memos receives no transfer without one |
| LedgerTheorems.CheckedDecimalsAgree | programs/src/processor.rs:322-332 | a checked instruction succeeds only on the account's own mint with that mint's decimals |
| LedgerTheorems.AbandonedLamportsAreBurned | programs/src/processor.rs:1148-1150 | an account nobody owns pays its lamports to the incinerator when closed |
| LedgerFees.FeeAlwaysWithheld | programs/src/processor.rs:470-491 | over every run that does not close the mint, a transfer of a fee-charging mint splits the amount into credit and withheld fee by exactly the fee in force, and only if the caller's expected fee agrees |
| LedgerFees.DestinationCanWithhold | programs/src/processor.rs:485-490 | the error for a destination that cannot withhold never occurs, in runs that do not close the mint |
| LedgerFees.FeeChangesWithNotice | programs/src/extension/transfer_fee/processor.rs:94-109 | until two epochs after a change the fee in force at the change applies, from then on the new one |
| LedgerConsent.TokenConsent | programs/src/processor.rs:381-434 | in every step tokens leave an account only by a real signature of its owner, its delegate within the allowance, or the mint's permanent delegate, or when nobody owns it; owner, close authority, delegation and frozen flag change, and the account ends, only by the signature of whoever decides on them; the one exception is an unclaimed multisig in that role |
| LedgerConsent.MintNeedsConsent | programs/src/processor.rs:953-965 | in every step a mint's supply rises, its authorities of every kind change and it ends only by a real signature of the authority in charge, with the same exception |
| LedgerConsent.OthersTakeNothing | programs/src/processor.rs:1528-1789 | unless a step is a transfer out of the account, a burn, an approval, a change of authority or a close of it, the account stays open with its owner, mint and close authority, loses no tokens, and its delegation does not grow |
| LedgerConsent.SilentOwnerKeepsTokens | programs/src/processor.rs:1528-1789 | over every run in which the owner signs nothing that acts on the account and is never an unclaimed multisig, an account without delegate and close authority, of a mint without permanent delegate that is not closed, stays open, stays the owner's and loses no tokens; what the owner signs for other accounts does not matter |
| LedgerConsent.OwnersTokensAreSafe | programs/src/processor.rs:1528-1789 | the same without exception for an owner that is an initialised multisig, or a wallet that is not handed over to the program |
| LedgerExample.RunReachesTokens | programs/src/processor.rs:1528-1789 | from the empty ledger a run of six steps that closes nothing reaches a non-transferable mint and an account holding five of its tokens |
| LedgerConditions.TransferIff | programs/src/processor.rs:285-533 | in a reachable state a transfer succeeds if and only if: the source is a program account not frozen and not pinned, with enough tokens; the mint named is its own, or none need be named; the expected fee is the fee due; the permanent delegate, the delegate within its allowance, or the owner outside the guard agrees; and the destination takes the amount (same mint, not frozen, memo, hook, fee extension, lamports of native tokens) |
| LedgerConditions.BurnIff | programs/src/processor.rs:987-1101 | the same for a burn: the supply always suffices, and an account nobody owns needs no agreement |
| LedgerConditions.MintToIff | programs/src/processor.rs:908-984 | minting succeeds if and only if the authority agrees, destination and decimals fit, and the new supply fits in 64 bits |
| LedgerConditions.CloseIff | programs/src/processor.rs:1104-1196 | closing a token account succeeds if and only if it is native or empty, nothing is withheld, the close authority agrees (for an abandoned account: the incinerator is paid), the guard allows the destination, and the lamports fit; closing a mint, if and only if its close authority agrees and no supply is left |
| LedgerConditions.InitializeIff | programs/src/processor.rs:65-283 | initialising a mint, account or multisig, or pinning an owner, succeeds if and only if the account is empty, funded, and of a length that fits; the truncated signer count never matters |
| LedgerConditions.ExtensionsFit | programs/src/extension/mod.rs:742-771 | a list of extensions can be initialised one after the other if and only if there is room for all of them at once, and then each is held once |
| LedgerConditions.ExtendIff | programs/src/extension/transfer_fee/processor.rs:28-60 | initialising an extension succeeds if and only if the mint is still empty, has room, and the values are legal |
| LedgerConditions.EditIff | programs/src/processor.rs:536-1278 | approvals, revocations, freezes, thaws, the two account options and synchronisation succeed if and only if their conditions hold |
| LedgerConditions.SetAuthorityIff | programs/src/processor.rs:630-905 | changing an authority succeeds if and only if there is one of that kind, it agrees, and it may be replaced |
| LedgerConditions.EditMintIff | programs/src/extension/transfer_fee/processor.rs:62-112 | a new fee or default state is accepted if and only if the authority agrees, the extension is there and the rate is legal |
| LedgerConditions.MoveLamportsIff | programs/src/processor.rs:1456-1525 | withdrawing excess lamports, or creating the native mint, succeeds if and only if the lamports are there and whoever decides agrees |
| LedgerConditions.ReallocateIff | programs/src/extension/reallocate.rs:24-113 | reallocation succeeds if and only if the owner agrees, the types are account types of known size, and the missing rent can be paid |
| LedgerWithheld.HarvestMeans | programs/src/extension/transfer_fee/processor.rs:180-204 | harvesting any list, repetitions and foreign accounts included, succeeds if and only if the total fits; the mint gains each listed account's withheld tokens once, those accounts have none left, nothing else changes |
| LedgerWithheld.WithdrawMeans | programs/src/extension/transfer_fee/processor.rs:206-275 | the same for withdrawing from a list that may contain the destination itself |
| LedgerWithheld.TakeIff | programs/src/extension/transfer_fee/processor.rs:114-275 | each of the three instructions on withheld tokens succeeds if and only if the authority agrees, the destination may receive, and the total fits |
| LedgerWithheld.WithdrawFromMintLeaves | programs/src/extension/transfer_fee/processor.rs:114-158 | the withheld tokens of the mint become tokens of the destination, and nothing else changes |
| LedgerEffects.SucceedsIff | programs/src/processor.rs:1528-1789 | in a reachable state every instruction succeeds if and only if the conditions a caller can check hold |
| LedgerEffects.NewAccountLeaves | programs/src/processor.rs:130-211 | a new account is exactly as named: no delegation, the extensions its mint requires, the mint's default state, and on the native mint the lamports above the rent as tokens |
| LedgerEffects.NewNativeIsSynchronised | programs/src/processor.rs:195-206 | synchronising a new native account changes nothing |
| LedgerEffects.NewMultisigLeaves | programs/src/processor.rs:231-271 | a new multisig holds the keys named, in their order, and zero keys behind them |
| LedgerEffects.EditLeaves | programs/src/processor.rs:536-1278 | approval, revocation, freeze, thaw, the two account options and synchronisation change exactly their own fields, to what was asked |
| LedgerEffects.SetTokenAuthorityMeans | programs/src/processor.rs:643-710 | a change of authority of a token account installs the one named, as owner or as close authority, and changes nothing else but the delegation and a native account's close authority on a change of owner |
| LedgerEffects.EditMintLeaves | programs/src/extension/transfer_fee/processor.rs:62-112 | a new fee starts two epochs later and until then the fee in force stays; a new default state is the one asked for |
| LedgerEffects.TransferLeaves | programs/src/processor.rs:285-533 | a transfer takes the amount from the source, credits it less the fee due, withholds the fee, charges a delegate's allowance, and moves lamports exactly for native accounts; nothing else changes |
| LedgerEffects.BurnLeaves | programs/src/processor.rs:987-1101 | a burn takes the amount from the account and from the supply, and charges a delegate's allowance |
| LedgerEffects.CloseLeaves | programs/src/processor.rs:1104-1196 | closing pays all lamports to the destination and leaves the account empty with the system program |
| LedgerEffects.WithdrawExcessLeaves | programs/src/processor.rs:1456-1525 | withdrawing excess lamports leaves exactly the rent for the account's length |
| LedgerEffects.CreateNativeLeaves | programs/src/processor.rs:1379-1421 | the native mint has no supply, no authorities, nine decimals and at least the rent |
| LedgerEffects.FreezeHolds | programs/src/processor.rs:1200-1248 | after a freeze, and over any run in which the account is neither toggled nor closed, no instruction that moves its tokens or changes who may succeeds |
| LedgerRoom.TypesDistinct | programs/src/extension/mod.rs:742-771 | over every run no account of the program holds an extension type twice |
| LedgerRoom.ReallocateServes | programs/src/extension/reallocate.rs:24-113 | after a reallocation in any reachable state every type it names can be initialised, one after the other |
| LedgerReasons.TransferErrors | programs/src/processor.rs:285-533 | in a reachable state a transfer fails only for the reason its error names |
| LedgerReasons.ErrorsTellTheTruth | programs/src/processor.rs:1528-1789 | the same for every other instruction that somebody must agree to: what the error says of the account, the mint or the call holds |
| LedgerReasons.SetupErrorsTellTheTruth | programs/src/processor.rs:1528-1789 | the same for the instructions that initialise an account |
| LedgerReasons.LamportErrorsTellTheTruth | programs/src/processor.rs:1528-1789 | the same for synchronisation, excess lamports, reallocation, the native mint and harvesting |

## Left out

- Confidential transfers and confidential fees: their proofs live in another library. Runs have no confidential instructions, and the checks they add to transfers and closes (`programs/src/processor.rs:464-468`, `1152-1162`) are not modelled.
- Updates of a hook program, a pointer or an interest rate: they change values that no theorem depends on.
- A default account state of "uninitialised", which is refused before anything else: the model's default states are frozen and initialised.
- Token metadata and token groups as instructions; as extension types they take part in the byte level.
- Interest-bearing rates and the conversions through floating point (`programs/src/lib.rs:38-46`).
- Transfer hooks beyond whether the hook succeeds: what it does to other accounts is an outside step, and the `transferring` flag is not kept.
- Instruction constructors, off-chain and on-chain helpers, the entry point and the generated bindings: account lists and plumbing with no hard property.
- Sysvars: rent is a function of the data length, the epoch, the call depth and the memo check are given with each call; logging and return data are dropped.
- Too few accounts, double borrows, and the runtime's limit on growing an account in one call: such calls fail and roll back.
- Test-only extension types.
- Instructions that only compute a length or a string for the caller (`programs/src/processor.rs:1298-1321`, `1337-1376`): what they compute is proved in `ExtensionTypes` and `UiAmount`.
- `usize` additions that saturate are plain additions: no buffer comes near the bound.
- LedgerReasons.ErrorsTellTheTruth: when several reasons hold, the order in which the source looks for them decides which error is returned; the order is fixed only by the functions in `Ledger` and the methods of `Processor`.
- Keys of the ledger are numbers compared for equality; at byte level they are 32 bytes.
- Strings are sequences of characters: a fraction's length is counted in characters, where the source counts bytes. Both end in the same error when a character is not a digit or a sign.
- Processor.Bank.Execute: an instruction that writes one account once has no method of its own; its new state is taken from `Ledger`, so for it the contract says no more than that function.
- AccountBytes.UnpackTokenAgrees: speaks of bytes that hold a token account, a mint, a multisig or a blank base state; on other bytes (an illegal option tag, an extension area that does not scan), which the program never writes, the ledger has no record.
- LedgerState.UnpackMint: reports the data of a token account always as invalid, where the source reports it as uninitialised if the byte at the place of the mint's flag is zero.
- LedgerState.UnpackUninitialized: reports data of the other kind always as invalid, where the source may also report it as already in use.
- LedgerTheorems.AccountsEquipped: runs that close the mint are excluded, because a closed mint can be created again with other extensions while old accounts remain.
