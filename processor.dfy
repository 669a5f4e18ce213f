/**
  The transition engine. Each handler is given twice: a function `...Outcome`
  that says what the handler does (the guard chain in the source's order, then
  at most one transfer request and the record to write back), and a method that
  runs the same guards step by step against an `AgreementAccount` and overwrites
  its data buffer in place, proved to agree with the function.
*/
module Processor {
  import opened Wrappers
  import opened Bytes
  import opened Errors
  import opened State
  import opened Instruction

  /** What a handler reads of a caller-supplied account: key, signer flag, balance, owner. */
  datatype Account = Account(key: Pubkey, isSigner: bool, lamports: uint64, owner: Pubkey)

  /** The agreement account as a value: its owner, its balance and its data buffer. */
  datatype RecordAccount = RecordAccount(owner: Pubkey, lamports: uint64, data: seq<uint8>)

  /** A `system_instruction::transfer` request handed to `invoke`. */
  datatype Transfer = Transfer(from: Pubkey, to: Pubkey, lamports: uint64)

  /** What a successful handler does: at most one transfer, and the record it writes back, if any. */
  datatype Effect = Effect(transfer: Option<Transfer>, written: Option<RentAgreement>)

  const NoEffect: Effect := Effect(None, None)

  /**
    The host's side of an invocation: the executing program's id, the id of the
    Rent sysvar, and the sysvar's `is_exempt(lamports, data_len)` test.
  */
  datatype Runtime = Runtime(programId: Pubkey, rentSysvarId: Pubkey, isExempt: (uint64, nat) -> bool)

  type Outcome = Result<Effect, ProgramError>

  /** What the handler returns to its caller: `Ok` with the transfer it invoked, if any, or the error. */
  type HandlerResult = Result<Option<Transfer>, ProgramError>

  function Reported(o: Outcome): HandlerResult
  {
    match o
    case Ok(effect) => Ok(effect.transfer)
    case Err(e) => Err(e)
  }

  /** The record account after the handler: the data is overwritten only by a successful write-back. */
  function Persisted(record: RecordAccount, o: Outcome): RecordAccount
  {
    if o.Ok? && o.value.written.Some? then record.(data := Serialize(o.value.written.value)) else record
  }

  /** The record the data decodes to, if it decodes and is initialized. */
  predicate DecodesInitialized(data: seq<uint8>)
  {
    TryFromSlice(data).Some? && IsInitialized(TryFromSlice(data).value)
  }

  // ---------------------------------------------------------------------------
  // initialize_rent_contract. Accounts: [record, Rent sysvar].

  function InitializeRentContractOutcome(rt: Runtime, record: RecordAccount, rest: seq<Account>, terms: AgreementTerms): (o: Outcome)
    ensures record.owner != rt.programId ==> o == Err(IncorrectProgramId)
    ensures o.Ok? <==>
      && record.owner == rt.programId
      && |rest| >= 1 && rest[0].key == rt.rentSysvarId
      && rt.isExempt(record.lamports, |record.data|)
      && |record.data| == RecordLen
      && TryFromSlice(record.data).value.status == 0
    ensures o.Ok? ==> o.value == Effect(None, Some(RentAgreement(
      1, terms.ownerPubkey, terms.tenantPubkey, terms.securityEscrowPubkey,
      terms.securityDeposit, terms.rentAmount, terms.duration, terms.duration,
      terms.startMonth, terms.startYear, 0)))
  {
    if record.owner != rt.programId then Err(IncorrectProgramId)
    else if |rest| < 1 then Err(NotEnoughAccountKeys)
    // `Rent::from_account_info` accepts only the Rent sysvar account
    else if rest[0].key != rt.rentSysvarId then Err(InvalidArgument)
    else if !rt.isExempt(record.lamports, |record.data|) then Err(AccountNotRentExempt)
    else match TryFromSlice(record.data)
      case None => Err(InvalidAccountData)
      case Some(rentData) =>
        if IsInitialized(rentData) then Err(AccountAlreadyInitialized)
        else Ok(Effect(None, Some(rentData.(
          status := DepositPending.Code(),
          ownerPubkey := terms.ownerPubkey,
          tenantPubkey := terms.tenantPubkey,
          securityEscrowPubkey := terms.securityEscrowPubkey,
          securityDeposit := terms.securityDeposit,
          rentAmount := terms.rentAmount,
          duration := terms.duration,
          remainingPayments := terms.duration,
          startMonth := terms.startMonth,
          startYear := terms.startYear,
          durationExtensionRequest := 0))))
  }

  // ---------------------------------------------------------------------------
  // pay_rent. Accounts: [record, tenant, owner, system program].

  /** The checks `pay_rent` makes on the decoded record, short of the caller-account checks. */
  predicate RentPaymentAccepted(data: seq<uint8>, ownerKey: Pubkey, amount: uint64)
  {
    && DecodesInitialized(data)
    && var r := TryFromSlice(data).value;
    && r.ownerPubkey == ownerKey
    && !IsCompleted(r) && !IsTerminated(r)
    && r.rentAmount == amount
    && r.remainingPayments > 0
  }

  function PayRentOutcome(rt: Runtime, record: RecordAccount, rest: seq<Account>, amount: uint64): (o: Outcome)
    ensures record.owner != rt.programId ==> o == Err(IncorrectProgramId)
    ensures o.Ok? <==>
      && record.owner == rt.programId
      && |rest| >= 3 && rest[0].isSigner && rest[0].lamports >= amount
      && (rest[0].key == rest[1].key || RentPaymentAccepted(record.data, rest[1].key, amount))
    ensures o.Ok? && rest[0].key == rest[1].key ==> o.value == NoEffect
    ensures o.Ok? && rest[0].key != rest[1].key ==>
      var r := TryFromSlice(record.data).value;
      && o.value.transfer == Some(Transfer(rest[0].key, rest[1].key, amount))
      && o.value.written.Some?
      && o.value.written.value.remainingPayments == r.remainingPayments - 1
      && o.value.written.value.status == (if r.remainingPayments == 1 then 3 else r.status)
      && o.value.written.value == r.(remainingPayments := o.value.written.value.remainingPayments,
                                     status := o.value.written.value.status)
  {
    if record.owner != rt.programId then Err(IncorrectProgramId)
    else if |rest| < 3 then Err(NotEnoughAccountKeys)
    else
      var tenant, owner := rest[0], rest[1];
      if !tenant.isSigner then Err(MissingRequiredSignature)
      else if tenant.lamports < amount then Err(InsufficientFunds)
      // transfer to self: nothing to do
      else if tenant.key == owner.key then Ok(NoEffect)
      else match TryFromSlice(record.data)
        case None => Err(InvalidAccountData)
        case Some(rentData) =>
          if !IsInitialized(rentData) then Err(UninitializedAccount)
          else if rentData.ownerPubkey != owner.key then Err(InvalidAccountData)
          else if IsCompleted(rentData) then Err(ToProgramError(RentAlreadyFullyPaid))
          else if IsTerminated(rentData) then Err(ToProgramError(RentAgreementTerminated))
          else if rentData.rentAmount != amount then Err(ToProgramError(IncorrectPaymentAmount))
          // `remaining_payments -= 1` on 0 overflows
          else if rentData.remainingPayments == 0 then Err(Panicked)
          else
            var left := rentData.remainingPayments - 1;
            Ok(Effect(
              Some(Transfer(tenant.key, owner.key, amount)),
              Some(rentData.(remainingPayments := left,
                             status := if left == 0 then Completed.Code() else rentData.status))))
  }

  // ---------------------------------------------------------------------------
  // deposit_security. Accounts: [record, tenant, escrow, system program].

  /** The checks `deposit_security` makes on the decoded record. */
  predicate DepositAccepted(data: seq<uint8>, escrowKey: Pubkey, amount: uint64)
  {
    && DecodesInitialized(data)
    && var r := TryFromSlice(data).value;
    && r.securityEscrowPubkey == escrowKey
    && IsSecurityDepositPending(r)
    && r.securityDeposit == amount
  }

  function DepositSecurityOutcome(rt: Runtime, record: RecordAccount, rest: seq<Account>, amount: uint64): (o: Outcome)
    ensures record.owner != rt.programId ==> o == Err(IncorrectProgramId)
    ensures o.Ok? <==>
      && record.owner == rt.programId
      && |rest| >= 3 && rest[0].isSigner && rest[0].lamports >= amount
      && (rest[0].key == rest[1].key || DepositAccepted(record.data, rest[1].key, amount))
    ensures o.Ok? && rest[0].key == rest[1].key ==> o.value == NoEffect
    ensures o.Ok? && rest[0].key != rest[1].key ==>
      var r := TryFromSlice(record.data).value;
      o.value == Effect(Some(Transfer(rest[0].key, rest[1].key, amount)), Some(r.(status := 2)))
  {
    if record.owner != rt.programId then Err(IncorrectProgramId)
    else if |rest| < 3 then Err(NotEnoughAccountKeys)
    else
      var tenant, escrow := rest[0], rest[1];
      if !tenant.isSigner then Err(MissingRequiredSignature)
      else if tenant.lamports < amount then Err(InsufficientFunds)
      // transfer to self: nothing to do
      else if tenant.key == escrow.key then Ok(NoEffect)
      else match TryFromSlice(record.data)
        case None => Err(InvalidAccountData)
        case Some(rentData) =>
          if !IsInitialized(rentData) then Err(UninitializedAccount)
          else if rentData.securityEscrowPubkey != escrow.key then Err(InvalidAccountData)
          else if !IsSecurityDepositPending(rentData) then Err(ToProgramError(SecurityAlreadyDeposited))
          else if amount != rentData.securityDeposit then Err(ToProgramError(IncorrectPaymentAmount))
          else Ok(Effect(Some(Transfer(tenant.key, escrow.key, amount)),
                         Some(rentData.(status := Active.Code()))))
  }

  // ---------------------------------------------------------------------------
  // terminate_early. Accounts: [record].

  function TerminateEarlyOutcome(rt: Runtime, record: RecordAccount, rest: seq<Account>): (o: Outcome)
    ensures record.owner != rt.programId ==> o == Err(IncorrectProgramId)
    ensures o.Ok? <==>
      && record.owner == rt.programId
      && DecodesInitialized(record.data)
      && TryFromSlice(record.data).value.status != 3
      && TryFromSlice(record.data).value.status != 4
    ensures o.Ok? ==>
      var r := TryFromSlice(record.data).value;
      o.value == Effect(None, Some(r.(remainingPayments := 0, status := 4)))
  {
    if record.owner != rt.programId then Err(IncorrectProgramId)
    else match TryFromSlice(record.data)
      case None => Err(InvalidAccountData)
      case Some(rentData) =>
        if !IsInitialized(rentData) then Err(UninitializedAccount)
        else if IsCompleted(rentData) then Err(ToProgramError(RentAlreadyFullyPaid))
        else if IsTerminated(rentData) then Err(ToProgramError(RentAgreementTerminated))
        else Ok(Effect(None, Some(rentData.(remainingPayments := 0, status := Terminated.Code()))))
  }

  // ---------------------------------------------------------------------------
  // extend_contract_duration_request. Accounts: [record, tenant].

  function ExtendContractDurationRequestOutcome(rt: Runtime, record: RecordAccount, rest: seq<Account>, extension: uint8): (o: Outcome)
    ensures record.owner != rt.programId ==> o == Err(IncorrectProgramId)
    ensures o.Ok? <==>
      && record.owner == rt.programId
      && |rest| >= 1 && rest[0].isSigner
      && TryFromSlice(record.data).Some?
      && TryFromSlice(record.data).value.status == 2
    ensures o.Ok? ==>
      var r := TryFromSlice(record.data).value;
      o.value == Effect(None, Some(r.(durationExtensionRequest := extension)))
  {
    if record.owner != rt.programId then Err(IncorrectProgramId)
    else if |rest| < 1 then Err(NotEnoughAccountKeys)
    else if !rest[0].isSigner then Err(MissingRequiredSignature)
    else match TryFromSlice(record.data)
      case None => Err(InvalidAccountData)
      case Some(rentData) =>
        if !IsInitialized(rentData) then Err(UninitializedAccount)
        else if rentData.status != Active.Code() then Err(ToProgramError(InvalidAgreementStatus))
        else Ok(Effect(None, Some(rentData.(durationExtensionRequest := extension))))
  }

  // ---------------------------------------------------------------------------
  // extend_contract_duration_confirm. Accounts: [record, owner].

  function ExtendContractDurationConfirmOutcome(rt: Runtime, record: RecordAccount, rest: seq<Account>, extension: uint8): (o: Outcome)
    ensures record.owner != rt.programId ==> o == Err(IncorrectProgramId)
    ensures o.Ok? <==>
      && record.owner == rt.programId
      && |rest| >= 1 && rest[0].isSigner
      && TryFromSlice(record.data).Some?
      && var r := TryFromSlice(record.data).value;
      && r.status == 2
      && r.durationExtensionRequest == extension
      && r.duration + extension < 0x100
      && r.remainingPayments + extension < 0x100
    ensures o.Ok? ==>
      var r := TryFromSlice(record.data).value;
      && o.value.transfer.None?
      && o.value.written.Some?
      && var w := o.value.written.value;
      && w.duration == r.duration + extension
      && w.remainingPayments == r.remainingPayments + extension
      && w == r.(duration := w.duration, remainingPayments := w.remainingPayments, durationExtensionRequest := 0)
  {
    if record.owner != rt.programId then Err(IncorrectProgramId)
    else if |rest| < 1 then Err(NotEnoughAccountKeys)
    else if !rest[0].isSigner then Err(MissingRequiredSignature)
    else match TryFromSlice(record.data)
      case None => Err(InvalidAccountData)
      case Some(rentData) =>
        if !IsInitialized(rentData) then Err(UninitializedAccount)
        else if rentData.status != Active.Code() then Err(ToProgramError(InvalidAgreementStatus))
        else if rentData.durationExtensionRequest != extension then Err(ToProgramError(InvalidInstructionParameter))
        // `duration += extension_duration` and `remaining_payments += extension_duration` past 255 overflow
        else if rentData.duration + extension >= 0x100 then Err(Panicked)
        else if rentData.remainingPayments + extension >= 0x100 then Err(Panicked)
        else Ok(Effect(None, Some(rentData.(
          duration := rentData.duration + extension,
          remainingPayments := rentData.remainingPayments + extension,
          durationExtensionRequest := 0))))
  }

  // ---------------------------------------------------------------------------
  // process: decode, then dispatch on the instruction.

  function DispatchOutcome(rt: Runtime, record: RecordAccount, rest: seq<Account>, ins: TrustedPropertiesInstruction): (o: Outcome)
    ensures record.owner != rt.programId ==> o == Err(IncorrectProgramId)
  {
    match ins
    case InitializeRentContract(terms) => InitializeRentContractOutcome(rt, record, rest, terms)
    case DepositSecurity(amount) => DepositSecurityOutcome(rt, record, rest, amount)
    case PayRent(amount) => PayRentOutcome(rt, record, rest, amount)
    case TerminateEarly => TerminateEarlyOutcome(rt, record, rest)
    case RequestContractDurationExtension(extension) => ExtendContractDurationRequestOutcome(rt, record, rest, extension)
    case ConfirmContractDurationExtension(extension) => ExtendContractDurationConfirmOutcome(rt, record, rest, extension)
  }

  /**
    `process` with the instruction decoder's integer readers at their declared widths
    (`UnpackIntended`); with the decoder as written, tags 0, 4 and 5 never reach a handler.
  */
  function ProcessOutcome(rt: Runtime, record: RecordAccount, rest: seq<Account>, input: seq<uint8>): (o: Outcome)
    ensures UnpackIntended(input).Err? ==> o == Err(UnpackIntended(input).error)
    ensures UnpackIntended(input).Ok? && record.owner != rt.programId ==> o == Err(IncorrectProgramId)
  {
    match UnpackIntended(input)
    case Err(e) => Err(e)
    case Ok(ins) => DispatchOutcome(rt, record, rest, ins)
  }

  // ---------------------------------------------------------------------------
  // The account and the handlers that update it in place.

  /** The agreement account: owner and balance, and the data buffer the handlers overwrite. */
  class AgreementAccount {
    const owner: Pubkey
    const lamports: uint64
    const data: array<uint8>

    constructor (owner: Pubkey, lamports: uint64, contents: seq<uint8>)
      ensures View() == RecordAccount(owner, lamports, contents)
      ensures fresh(data)
    {
      this.owner := owner;
      this.lamports := lamports;
      data := new uint8[|contents|](i requires 0 <= i < |contents| => contents[i]);
    }

    function View(): RecordAccount
      reads data
    {
      RecordAccount(owner, lamports, data[..])
    }

    /** `rent_data.serialize(...)` into the borrowed data buffer: the buffer now holds the encoded record. */
    method Store(r: RentAgreement)
      requires data.Length == RecordLen
      modifies data
      ensures data[..] == Serialize(r)
    {
      var bytes := Serialize(r);
      forall i | 0 <= i < data.Length {
        data[i] := bytes[i];
      }
    }
  }

  method InitializeRentContract(rt: Runtime, account: AgreementAccount, rest: seq<Account>, terms: AgreementTerms)
    returns (result: HandlerResult)
    modifies account.data
    ensures result == Reported(InitializeRentContractOutcome(rt, old(account.View()), rest, terms))
    ensures account.View() == Persisted(old(account.View()), InitializeRentContractOutcome(rt, old(account.View()), rest, terms))
    ensures result.Err? ==> account.data[..] == old(account.data[..])
  {
    if account.owner != rt.programId {
      return Err(IncorrectProgramId);
    }
    if |rest| < 1 {
      return Err(NotEnoughAccountKeys);
    }
    var rentSysvar := rest[0];
    if rentSysvar.key != rt.rentSysvarId {
      return Err(InvalidArgument);
    }
    if !rt.isExempt(account.lamports, account.data.Length) {
      return Err(AccountNotRentExempt);
    }
    var decoded := TryFromSlice(account.data[..]);
    if decoded.None? {
      return Err(InvalidAccountData);
    }
    var rentData := decoded.value;
    if IsInitialized(rentData) {
      return Err(AccountAlreadyInitialized);
    }
    rentData := rentData.(status := DepositPending.Code());
    rentData := rentData.(ownerPubkey := terms.ownerPubkey);
    rentData := rentData.(tenantPubkey := terms.tenantPubkey);
    rentData := rentData.(securityEscrowPubkey := terms.securityEscrowPubkey);
    rentData := rentData.(securityDeposit := terms.securityDeposit);
    rentData := rentData.(rentAmount := terms.rentAmount);
    rentData := rentData.(duration := terms.duration);
    rentData := rentData.(remainingPayments := terms.duration);
    rentData := rentData.(startMonth := terms.startMonth);
    rentData := rentData.(startYear := terms.startYear);
    rentData := rentData.(durationExtensionRequest := 0);
    account.Store(rentData);
    return Ok(None);
  }

  method PayRent(rt: Runtime, account: AgreementAccount, rest: seq<Account>, amount: uint64)
    returns (result: HandlerResult)
    modifies account.data
    ensures result == Reported(PayRentOutcome(rt, old(account.View()), rest, amount))
    ensures account.View() == Persisted(old(account.View()), PayRentOutcome(rt, old(account.View()), rest, amount))
    ensures result.Err? ==> account.data[..] == old(account.data[..])
  {
    if account.owner != rt.programId {
      return Err(IncorrectProgramId);
    }
    if |rest| < 3 {
      return Err(NotEnoughAccountKeys);
    }
    var tenant, owner := rest[0], rest[1];
    if !tenant.isSigner {
      return Err(MissingRequiredSignature);
    }
    if tenant.lamports < amount {
      return Err(InsufficientFunds);
    }
    if tenant.key == owner.key {
      return Ok(None);
    }
    var decoded := TryFromSlice(account.data[..]);
    if decoded.None? {
      return Err(InvalidAccountData);
    }
    var rentData := decoded.value;
    if !IsInitialized(rentData) {
      return Err(UninitializedAccount);
    }
    if rentData.ownerPubkey != owner.key {
      return Err(InvalidAccountData);
    }
    if IsCompleted(rentData) {
      return Err(ToProgramError(RentAlreadyFullyPaid));
    }
    if IsTerminated(rentData) {
      return Err(ToProgramError(RentAgreementTerminated));
    }
    if rentData.rentAmount != amount {
      return Err(ToProgramError(IncorrectPaymentAmount));
    }
    var transfer := Transfer(tenant.key, owner.key, amount);
    if rentData.remainingPayments == 0 {
      return Err(Panicked);
    }
    rentData := rentData.(remainingPayments := rentData.remainingPayments - 1);
    if rentData.remainingPayments == 0 {
      rentData := rentData.(status := Completed.Code());
    }
    account.Store(rentData);
    return Ok(Some(transfer));
  }

  method DepositSecurity(rt: Runtime, account: AgreementAccount, rest: seq<Account>, amount: uint64)
    returns (result: HandlerResult)
    modifies account.data
    ensures result == Reported(DepositSecurityOutcome(rt, old(account.View()), rest, amount))
    ensures account.View() == Persisted(old(account.View()), DepositSecurityOutcome(rt, old(account.View()), rest, amount))
    ensures result.Err? ==> account.data[..] == old(account.data[..])
  {
    if account.owner != rt.programId {
      return Err(IncorrectProgramId);
    }
    if |rest| < 3 {
      return Err(NotEnoughAccountKeys);
    }
    var tenant, escrow := rest[0], rest[1];
    if !tenant.isSigner {
      return Err(MissingRequiredSignature);
    }
    if tenant.lamports < amount {
      return Err(InsufficientFunds);
    }
    if tenant.key == escrow.key {
      return Ok(None);
    }
    var decoded := TryFromSlice(account.data[..]);
    if decoded.None? {
      return Err(InvalidAccountData);
    }
    var rentData := decoded.value;
    if !IsInitialized(rentData) {
      return Err(UninitializedAccount);
    }
    if rentData.securityEscrowPubkey != escrow.key {
      return Err(InvalidAccountData);
    }
    if !IsSecurityDepositPending(rentData) {
      return Err(ToProgramError(SecurityAlreadyDeposited));
    }
    if amount != rentData.securityDeposit {
      return Err(ToProgramError(IncorrectPaymentAmount));
    }
    var transfer := Transfer(tenant.key, escrow.key, amount);
    rentData := rentData.(status := Active.Code());
    account.Store(rentData);
    return Ok(Some(transfer));
  }

  method TerminateEarly(rt: Runtime, account: AgreementAccount, rest: seq<Account>)
    returns (result: HandlerResult)
    modifies account.data
    ensures result == Reported(TerminateEarlyOutcome(rt, old(account.View()), rest))
    ensures account.View() == Persisted(old(account.View()), TerminateEarlyOutcome(rt, old(account.View()), rest))
    ensures result.Err? ==> account.data[..] == old(account.data[..])
  {
    if account.owner != rt.programId {
      return Err(IncorrectProgramId);
    }
    var decoded := TryFromSlice(account.data[..]);
    if decoded.None? {
      return Err(InvalidAccountData);
    }
    var rentData := decoded.value;
    if !IsInitialized(rentData) {
      return Err(UninitializedAccount);
    }
    if IsCompleted(rentData) {
      return Err(ToProgramError(RentAlreadyFullyPaid));
    }
    if IsTerminated(rentData) {
      return Err(ToProgramError(RentAgreementTerminated));
    }
    rentData := rentData.(remainingPayments := 0);
    rentData := rentData.(status := Terminated.Code());
    account.Store(rentData);
    return Ok(None);
  }

  method ExtendContractDurationRequest(rt: Runtime, account: AgreementAccount, rest: seq<Account>, extension: uint8)
    returns (result: HandlerResult)
    modifies account.data
    ensures result == Reported(ExtendContractDurationRequestOutcome(rt, old(account.View()), rest, extension))
    ensures account.View() == Persisted(old(account.View()), ExtendContractDurationRequestOutcome(rt, old(account.View()), rest, extension))
    ensures result.Err? ==> account.data[..] == old(account.data[..])
  {
    if account.owner != rt.programId {
      return Err(IncorrectProgramId);
    }
    if |rest| < 1 {
      return Err(NotEnoughAccountKeys);
    }
    var tenant := rest[0];
    if !tenant.isSigner {
      return Err(MissingRequiredSignature);
    }
    var decoded := TryFromSlice(account.data[..]);
    if decoded.None? {
      return Err(InvalidAccountData);
    }
    var rentData := decoded.value;
    if !IsInitialized(rentData) {
      return Err(UninitializedAccount);
    }
    if rentData.status != Active.Code() {
      return Err(ToProgramError(InvalidAgreementStatus));
    }
    rentData := rentData.(durationExtensionRequest := extension);
    account.Store(rentData);
    return Ok(None);
  }

  method ExtendContractDurationConfirm(rt: Runtime, account: AgreementAccount, rest: seq<Account>, extension: uint8)
    returns (result: HandlerResult)
    modifies account.data
    ensures result == Reported(ExtendContractDurationConfirmOutcome(rt, old(account.View()), rest, extension))
    ensures account.View() == Persisted(old(account.View()), ExtendContractDurationConfirmOutcome(rt, old(account.View()), rest, extension))
    ensures result.Err? ==> account.data[..] == old(account.data[..])
  {
    if account.owner != rt.programId {
      return Err(IncorrectProgramId);
    }
    if |rest| < 1 {
      return Err(NotEnoughAccountKeys);
    }
    var owner := rest[0];
    if !owner.isSigner {
      return Err(MissingRequiredSignature);
    }
    var decoded := TryFromSlice(account.data[..]);
    if decoded.None? {
      return Err(InvalidAccountData);
    }
    var rentData := decoded.value;
    if !IsInitialized(rentData) {
      return Err(UninitializedAccount);
    }
    if rentData.status != Active.Code() {
      return Err(ToProgramError(InvalidAgreementStatus));
    }
    if rentData.durationExtensionRequest != extension {
      return Err(ToProgramError(InvalidInstructionParameter));
    }
    if rentData.duration + extension >= 0x100 {
      return Err(Panicked);
    }
    rentData := rentData.(duration := rentData.duration + extension);
    if rentData.remainingPayments + extension >= 0x100 {
      return Err(Panicked);
    }
    rentData := rentData.(remainingPayments := rentData.remainingPayments + extension);
    rentData := rentData.(durationExtensionRequest := 0);
    account.Store(rentData);
    return Ok(None);
  }

  /** `Processor::process`: decode the instruction, then run its handler. */
  method Process(rt: Runtime, account: AgreementAccount, rest: seq<Account>, input: seq<uint8>)
    returns (result: HandlerResult)
    modifies account.data
    ensures result == Reported(ProcessOutcome(rt, old(account.View()), rest, input))
    ensures account.View() == Persisted(old(account.View()), ProcessOutcome(rt, old(account.View()), rest, input))
    ensures result.Err? ==> account.data[..] == old(account.data[..])
  {
    var instruction := UnpackIntended(input);
    if instruction.Err? {
      return Err(instruction.error);
    }
    match instruction.value
    case InitializeRentContract(terms) =>
      result := InitializeRentContract(rt, account, rest, terms);
    case DepositSecurity(amount) =>
      result := DepositSecurity(rt, account, rest, amount);
    case PayRent(amount) =>
      result := PayRent(rt, account, rest, amount);
    case TerminateEarly =>
      result := TerminateEarly(rt, account, rest);
    case RequestContractDurationExtension(extension) =>
      result := ExtendContractDurationRequest(rt, account, rest, extension);
    case ConfirmContractDurationExtension(extension) =>
      result := ExtendContractDurationConfirm(rt, account, rest, extension);
  }
}
