/**
  The program's custom errors and the runtime errors its handlers return.
*/
module Errors {
  import opened Wrappers
  import opened Bytes

  /** `TrustedPropertiesError`, in declaration order. */
  datatype TrustedPropertiesError =
    | InvalidInstruction
    | IncorrectPaymentAmount
    | RentAlreadyFullyPaid
    | SecurityAlreadyDeposited
    | RentAgreementTerminated
    | InvalidAgreementStatus
    | InvalidInstructionParameter
  {
    /** `e as u32`: the variant's declaration index. */
    function Code(): uint32
    {
      match this
      case InvalidInstruction => 0
      case IncorrectPaymentAmount => 1
      case RentAlreadyFullyPaid => 2
      case SecurityAlreadyDeposited => 3
      case RentAgreementTerminated => 4
      case InvalidAgreementStatus => 5
      case InvalidInstructionParameter => 6
    }
  }

  /** The number of custom error variants. */
  const VariantCount: nat := 7

  /**
    The runtime's `ProgramError`, restricted to the variants this program produces.
    `Panicked` is not a `ProgramError`: it stands for a Rust panic (a failed slice
    or an overflowing `u8` operation), which aborts the whole invocation.
  */
  datatype ProgramError =
    | Custom(code: uint32)
    | IncorrectProgramId
    | InvalidArgument
    | InvalidAccountData
    | AccountAlreadyInitialized
    | UninitializedAccount
    | MissingRequiredSignature
    | InsufficientFunds
    | AccountNotRentExempt
    | NotEnoughAccountKeys
    | Panicked

  /** `impl From<TrustedPropertiesError> for ProgramError`. */
  function ToProgramError(e: TrustedPropertiesError): (pe: ProgramError)
    ensures pe.Custom? && pe.code < VariantCount
  {
    Custom(e.Code())
  }

  /** The custom error a `Custom(n)` code stands for, if any. */
  function FromCustomCode(n: uint32): (e: Option<TrustedPropertiesError>)
    ensures e.Some? <==> n < VariantCount
    ensures e.Some? ==> e.value.Code() == n
  {
    if n == 0 then Some(InvalidInstruction)
    else if n == 1 then Some(IncorrectPaymentAmount)
    else if n == 2 then Some(RentAlreadyFullyPaid)
    else if n == 3 then Some(SecurityAlreadyDeposited)
    else if n == 4 then Some(RentAgreementTerminated)
    else if n == 5 then Some(InvalidAgreementStatus)
    else if n == 6 then Some(InvalidInstructionParameter)
    else None
  }

  /** Every variant maps to `Custom` of its declaration index. */
  lemma CodesAreDeclarationIndices()
    ensures ToProgramError(InvalidInstruction) == Custom(0)
    ensures ToProgramError(IncorrectPaymentAmount) == Custom(1)
    ensures ToProgramError(RentAlreadyFullyPaid) == Custom(2)
    ensures ToProgramError(SecurityAlreadyDeposited) == Custom(3)
    ensures ToProgramError(RentAgreementTerminated) == Custom(4)
    ensures ToProgramError(InvalidAgreementStatus) == Custom(5)
    ensures ToProgramError(InvalidInstructionParameter) == Custom(6)
  {
  }

  /** The code of a variant determines the variant. */
  lemma {:induction false} CustomCodeRoundTrip(e: TrustedPropertiesError)
    ensures FromCustomCode(ToProgramError(e).code) == Some(e)
  {
    match e
    case InvalidInstruction =>
    case IncorrectPaymentAmount =>
    case RentAlreadyFullyPaid =>
    case SecurityAlreadyDeposited =>
    case RentAgreementTerminated =>
    case InvalidAgreementStatus =>
    case InvalidInstructionParameter =>
  }

  /** Distinct variants give distinct codes. */
  lemma {:induction false} ToProgramErrorInjective(a: TrustedPropertiesError, b: TrustedPropertiesError)
    requires a != b
    ensures ToProgramError(a) != ToProgramError(b)
  {
    CustomCodeRoundTrip(a);
    CustomCodeRoundTrip(b);
  }
}
