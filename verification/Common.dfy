/** Failure-compatible results and the error codes the program returns. */
module Common {
  /** `ProgramError` and `TokenError` values, plus `Panic` for a Rust panic, which also aborts. */
  datatype Error =
    | InvalidArgument | InvalidInstructionData | InvalidAccountData | AccountDataTooSmall
    | IncorrectProgramId | MissingRequiredSignature | UninitializedAccount | InsufficientLamports
    | NotRentExempt | InsufficientFunds | InvalidMint | MintMismatch | OwnerMismatch | FixedSupply
    | AlreadyInUse | InvalidNumberOfProvidedSigners | InvalidNumberOfRequiredSigners
    | NativeNotSupported | NonNativeHasBalance | InvalidInstruction | InvalidState | Overflow
    | AuthorityTypeNotSupported | MintCannotFreeze | AccountFrozen | MintDecimalsMismatch
    | NonNativeNotSupported | ExtensionTypeMismatch | ExtensionBaseMismatch
    | ExtensionAlreadyInitialized | MintHasSupply | NoAuthorityExists | TransferFeeExceedsMaximum
    | MintRequiredForTransfer | FeeMismatch | ImmutableOwner | AccountHasWithheldTransferFees
    | NoMemo | NonTransferable | NonTransferableNeedsImmutableOwnership
    | CpiGuardSettingsLocked | CpiGuardTransferBlocked | CpiGuardBurnBlocked
    | CpiGuardCloseAccountBlocked | CpiGuardApproveBlocked | CpiGuardSetAuthorityBlocked
    | CpiGuardOwnerChangeBlocked | ExtensionNotFound | InvalidExtensionCombination
    | InvalidLengthForAlloc | HookFailed | Panic

  datatype Option<+T> = None | Some(value: T)

  datatype Result<+T> = Ok(value: T) | Err(error: Error) {
    predicate IsFailure() {
      Err?
    }

    function PropagateFailure<U>(): Result<U>
      requires Err?
    {
      Err(error)
    }

    function Extract(): T
      requires Ok?
    {
      value
    }
  }

  /** The outcome of a guard: `:- Need(condition, error)` is the source's early `return Err(error)`. */
  datatype Outcome = Pass | Fail(error: Error) {
    predicate IsFailure() {
      Fail?
    }

    function PropagateFailure<U>(): Result<U>
      requires Fail?
    {
      Err(error)
    }
  }

  function Need(condition: bool, error: Error): Outcome {
    if condition then Pass else Fail(error)
  }
}
