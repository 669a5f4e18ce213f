/**
  Properties of the agreement lifecycle that relate several handler calls, or
  all handlers at once: the status steps a write can take, what a write keeps,
  which guard reports a failure, and the end-to-end scenarios of a lease.
*/
module Lifecycle {
  import opened Wrappers
  import opened Bytes
  import opened Errors
  import opened State
  import opened Instruction
  import opened Processor

  /** The record a buffer decodes to; only meaningful when it decodes. */
  function Decoded(record: RecordAccount): RentAgreement
    requires TryFromSlice(record.data).Some?
  {
    TryFromSlice(record.data).value
  }

  /** A handler call that writes the record back. */
  predicate Writes(o: Outcome)
  {
    o.Ok? && o.value.written.Some?
  }

  // ---------------------------------------------------------------------------
  // The status machine as written.

  /**
    The status changes a write-back can make: Initialize 0 -> 1, DepositSecurity 1 -> 2,
    and from any initialized status other than Completed and Terminated (including
    the undeclared bytes above 4, which decoding does not reject) a write that keeps
    the status (rent, extension), PayRent's last payment to 3, or TerminateEarly to 4.
  */
  predicate StatusStep(before: uint8, after: uint8)
  {
    || (before == 0 && after == 1)
    || (before == 1 && after == 2)
    || (before != 0 && before != 3 && before != 4 && (after == before || after == 3 || after == 4))
  }

  /** Every write-back follows a status step; in particular none returns to Uninitialized. */
  lemma {:induction false} WritesFollowStatusSteps(rt: Runtime, record: RecordAccount, rest: seq<Account>, ins: TrustedPropertiesInstruction)
    requires Writes(DispatchOutcome(rt, record, rest, ins))
    ensures TryFromSlice(record.data).Some?
    ensures StatusStep(Decoded(record).status, DispatchOutcome(rt, record, rest, ins).value.written.value.status)
    ensures DispatchOutcome(rt, record, rest, ins).value.written.value.status != 0
  {
    match ins
    case InitializeRentContract(terms) =>
    case DepositSecurity(amount) =>
    case PayRent(amount) =>
    case TerminateEarly =>
    case RequestContractDurationExtension(extension) =>
    case ConfirmContractDurationExtension(extension) =>
  }

  /** Completed and Terminated records are never written again, whatever the instruction. */
  lemma {:induction false} CompletedAndTerminatedAreFinal(rt: Runtime, record: RecordAccount, rest: seq<Account>, ins: TrustedPropertiesInstruction)
    requires TryFromSlice(record.data).Some?
    requires Decoded(record).status == 3 || Decoded(record).status == 4
    ensures !Writes(DispatchOutcome(rt, record, rest, ins))
  {
    match ins
    case InitializeRentContract(terms) =>
    case DepositSecurity(amount) =>
    case PayRent(amount) =>
    case TerminateEarly =>
    case RequestContractDurationExtension(extension) =>
    case ConfirmContractDurationExtension(extension) =>
  }

  /** The parties and the fixed terms a record keeps once initialized. */
  predicate TermsKept(r: RentAgreement, w: RentAgreement)
  {
    && w.ownerPubkey == r.ownerPubkey
    && w.tenantPubkey == r.tenantPubkey
    && w.securityEscrowPubkey == r.securityEscrowPubkey
    && w.securityDeposit == r.securityDeposit
    && w.rentAmount == r.rentAmount
    && w.startMonth == r.startMonth
    && w.startYear == r.startYear
  }

  predicate PaymentsWithinDuration(r: RentAgreement)
  {
    r.remainingPayments <= r.duration
  }

  /** Initialize establishes the payment-count invariant and leaves no extension pending. */
  lemma InitializeEstablishesInvariant(rt: Runtime, record: RecordAccount, rest: seq<Account>, terms: AgreementTerms)
    requires Writes(InitializeRentContractOutcome(rt, record, rest, terms))
    ensures var w := InitializeRentContractOutcome(rt, record, rest, terms).value.written.value;
      PaymentsWithinDuration(w) && w.durationExtensionRequest == 0
  {
  }

  /**
    Every write-back after initialization starts from an initialized record, keeps
    its parties and terms, and keeps `remaining_payments <= duration`.
  */
  lemma {:induction false} WritesKeepTermsAndCount(rt: Runtime, record: RecordAccount, rest: seq<Account>, ins: TrustedPropertiesInstruction)
    requires !ins.InitializeRentContract?
    requires Writes(DispatchOutcome(rt, record, rest, ins))
    ensures DecodesInitialized(record.data)
    ensures var w := DispatchOutcome(rt, record, rest, ins).value.written.value;
      && TermsKept(Decoded(record), w)
      && (PaymentsWithinDuration(Decoded(record)) ==> PaymentsWithinDuration(w))
  {
    match ins
    case DepositSecurity(amount) =>
    case PayRent(amount) =>
    case TerminateEarly =>
    case RequestContractDurationExtension(extension) =>
    case ConfirmContractDurationExtension(extension) =>
  }

  /** Every instruction a client encodes reaches its handler: `process` on its encoding is the handler's outcome. */
  lemma ProcessRunsEncodedInstructions(rt: Runtime, record: RecordAccount, rest: seq<Account>, ins: TrustedPropertiesInstruction)
    ensures ProcessOutcome(rt, record, rest, Pack(ins)) == DispatchOutcome(rt, record, rest, ins)
  {
    UnpackIntendedRoundTrip(ins);
  }

  /** Instruction data that does not decode is rejected before any account is looked at, and nothing is written. */
  lemma MalformedInstructionWritesNothing(rt: Runtime, record: RecordAccount, rest: seq<Account>, input: seq<uint8>)
    requires UnpackIntended(input).Err?
    ensures ProcessOutcome(rt, record, rest, input).Err?
    ensures Persisted(record, ProcessOutcome(rt, record, rest, input)) == record
  {
  }

  // ---------------------------------------------------------------------------
  // Initialize.

  /** A second Initialize on a record that was initialized fails and writes nothing. */
  lemma {:induction false} SecondInitializeFails(rt: Runtime, record: RecordAccount, rest: seq<Account>, terms: AgreementTerms, again: AgreementTerms)
    requires InitializeRentContractOutcome(rt, record, rest, terms).Ok?
    ensures var after := Persisted(record, InitializeRentContractOutcome(rt, record, rest, terms));
      && InitializeRentContractOutcome(rt, after, rest, again) == Err(AccountAlreadyInitialized)
      && Persisted(after, InitializeRentContractOutcome(rt, after, rest, again)) == after
  {
    var w := InitializeRentContractOutcome(rt, record, rest, terms).value.written.value;
    DecodeSerialized(w);
  }

  // ---------------------------------------------------------------------------
  // Which error each handler reports: every guard of each handler, in the order
  // the handler tests them, once the record is owned by the program (the
  // ownership error comes first in every handler, see `DispatchOutcome`).

  /** The caller-account checks of PayRent and DepositSecurity pass: three accounts, a signing payer with funds, a payee other than the payer. */
  predicate PayerReady(rest: seq<Account>, amount: uint64)
  {
    |rest| >= 3 && rest[0].isSigner && rest[0].lamports >= amount && rest[0].key != rest[1].key
  }

  /** The signer check of the extension handlers passes. */
  predicate SignerPresent(rest: seq<Account>)
  {
    |rest| >= 1 && rest[0].isSigner
  }

  /**
    InitializeRentContract: a missing sysvar account, then an account that is not the
    Rent sysvar, then a balance below rent exemption, then a buffer that does not
    decode, then an initialized record.
  */
  lemma InitializeReportsFirstFailedGuard(rt: Runtime, record: RecordAccount, rest: seq<Account>, terms: AgreementTerms)
    requires record.owner == rt.programId
    ensures var o := InitializeRentContractOutcome(rt, record, rest, terms);
      && (|rest| < 1 ==> o == Err(NotEnoughAccountKeys))
      && (|rest| >= 1 && rest[0].key != rt.rentSysvarId ==> o == Err(InvalidArgument))
      && (|rest| >= 1 && rest[0].key == rt.rentSysvarId ==>
          && (!rt.isExempt(record.lamports, |record.data|) ==> o == Err(AccountNotRentExempt))
          && (rt.isExempt(record.lamports, |record.data|) && |record.data| != RecordLen ==> o == Err(InvalidAccountData))
          && (rt.isExempt(record.lamports, |record.data|) && |record.data| == RecordLen ==>
                Decoded(record).status != 0 ==> o == Err(AccountAlreadyInitialized)))
  {
  }

  /**
    DepositSecurity: missing accounts, then no signature, then too few lamports;
    then (payer and escrow distinct) a buffer that does not decode, an uninitialized
    record, a different escrow key, a status other than DepositPending, a different amount.
  */
  lemma DepositSecurityReportsFirstFailedGuard(rt: Runtime, record: RecordAccount, rest: seq<Account>, amount: uint64)
    requires record.owner == rt.programId
    ensures var o := DepositSecurityOutcome(rt, record, rest, amount);
      && (|rest| < 3 ==> o == Err(NotEnoughAccountKeys))
      && (|rest| >= 3 && !rest[0].isSigner ==> o == Err(MissingRequiredSignature))
      && (|rest| >= 3 && rest[0].isSigner && rest[0].lamports < amount ==> o == Err(InsufficientFunds))
      && (PayerReady(rest, amount) && |record.data| != RecordLen ==> o == Err(InvalidAccountData))
      && (PayerReady(rest, amount) && |record.data| == RecordLen ==>
          var r := Decoded(record);
          && (r.status == 0 ==> o == Err(UninitializedAccount))
          && (r.status != 0 && r.securityEscrowPubkey != rest[1].key ==> o == Err(InvalidAccountData))
          && (r.status != 0 && r.securityEscrowPubkey == rest[1].key ==>
              && (r.status != 1 ==> o == Err(Custom(3)))
              && (r.status == 1 && amount != r.securityDeposit ==> o == Err(Custom(1)))))
  {
  }

  /**
    PayRent: missing accounts, then no signature, then too few lamports; then (tenant
    and owner distinct) a buffer that does not decode, an uninitialized record, a
    different owner key, Completed (`RentAlreadyFullyPaid`), Terminated
    (`RentAgreementTerminated`), a different amount (`IncorrectPaymentAmount`), and
    last the `u8` underflow when no payment is due. A Completed record paid with a
    wrong amount reports `RentAlreadyFullyPaid`.
  */
  lemma PayRentReportsFirstFailedGuard(rt: Runtime, record: RecordAccount, rest: seq<Account>, amount: uint64)
    requires record.owner == rt.programId
    ensures var o := PayRentOutcome(rt, record, rest, amount);
      && (|rest| < 3 ==> o == Err(NotEnoughAccountKeys))
      && (|rest| >= 3 && !rest[0].isSigner ==> o == Err(MissingRequiredSignature))
      && (|rest| >= 3 && rest[0].isSigner && rest[0].lamports < amount ==> o == Err(InsufficientFunds))
      && (PayerReady(rest, amount) && |record.data| != RecordLen ==> o == Err(InvalidAccountData))
      && (PayerReady(rest, amount) && |record.data| == RecordLen ==>
          var r := Decoded(record);
          && (r.status == 0 ==> o == Err(UninitializedAccount))
          && (r.status != 0 && r.ownerPubkey != rest[1].key ==> o == Err(InvalidAccountData))
          && (r.status != 0 && r.ownerPubkey == rest[1].key ==>
              && (r.status == 3 ==> o == Err(Custom(2)))
              && (r.status == 4 ==> o == Err(Custom(4)))
              && (r.status != 3 && r.status != 4 && r.rentAmount != amount ==> o == Err(Custom(1)))
              && (r.status != 3 && r.status != 4 && r.rentAmount == amount ==>
                    r.remainingPayments == 0 ==> o == Err(Panicked))))
  {
  }

  /** TerminateEarly: a buffer that does not decode, then an uninitialized record, then Completed, then Terminated. */
  lemma TerminateEarlyReportsFirstFailedGuard(rt: Runtime, record: RecordAccount, rest: seq<Account>)
    requires record.owner == rt.programId
    ensures var o := TerminateEarlyOutcome(rt, record, rest);
      && (|record.data| != RecordLen ==> o == Err(InvalidAccountData))
      && (|record.data| == RecordLen ==>
          && (Decoded(record).status == 0 ==> o == Err(UninitializedAccount))
          && (Decoded(record).status == 3 ==> o == Err(Custom(2)))
          && (Decoded(record).status == 4 ==> o == Err(Custom(4))))
  {
  }

  /**
    RequestContractDurationExtension: a missing account, then no signature, then a
    buffer that does not decode, an uninitialized record, and a status other than
    Active (`InvalidAgreementStatus`).
  */
  lemma ExtendContractDurationRequestReportsFirstFailedGuard(rt: Runtime, record: RecordAccount, rest: seq<Account>, extension: uint8)
    requires record.owner == rt.programId
    ensures var o := ExtendContractDurationRequestOutcome(rt, record, rest, extension);
      && (|rest| < 1 ==> o == Err(NotEnoughAccountKeys))
      && (|rest| >= 1 && !rest[0].isSigner ==> o == Err(MissingRequiredSignature))
      && (SignerPresent(rest) && |record.data| != RecordLen ==> o == Err(InvalidAccountData))
      && (SignerPresent(rest) && |record.data| == RecordLen ==>
          && (Decoded(record).status == 0 ==> o == Err(UninitializedAccount))
          && (Decoded(record).status != 0 && Decoded(record).status != 2 ==> o == Err(Custom(5))))
  {
  }

  /**
    ConfirmContractDurationExtension: the request's guards, then a value other than
    the pending request (`InvalidInstructionParameter`), then the `u8` overflow of
    `duration` and then of `remaining_payments`.
  */
  lemma ExtendContractDurationConfirmReportsFirstFailedGuard(rt: Runtime, record: RecordAccount, rest: seq<Account>, extension: uint8)
    requires record.owner == rt.programId
    ensures var o := ExtendContractDurationConfirmOutcome(rt, record, rest, extension);
      && (|rest| < 1 ==> o == Err(NotEnoughAccountKeys))
      && (|rest| >= 1 && !rest[0].isSigner ==> o == Err(MissingRequiredSignature))
      && (SignerPresent(rest) && |record.data| != RecordLen ==> o == Err(InvalidAccountData))
      && (SignerPresent(rest) && |record.data| == RecordLen ==>
          var r := Decoded(record);
          && (r.status == 0 ==> o == Err(UninitializedAccount))
          && (r.status != 0 && r.status != 2 ==> o == Err(Custom(5)))
          && (r.status == 2 && r.durationExtensionRequest != extension ==> o == Err(Custom(6)))
          && (r.status == 2 && r.durationExtensionRequest == extension ==>
              && (r.duration + extension >= 0x100 ==> o == Err(Panicked))
              && (r.duration + extension < 0x100 && r.remainingPayments + extension >= 0x100 ==> o == Err(Panicked))))
  {
  }

  // ---------------------------------------------------------------------------
  // Deposit and rent.

  /**
    Neither payment handler reads the stored tenant key: replacing it in the record
    changes neither whether a payment or deposit is accepted nor what it writes
    besides that key, so any signer with funds can pay.
  */
  lemma {:induction false} PaymentsIgnoreStoredTenant(rt: Runtime, record: RecordAccount, rest: seq<Account>, amount: uint64, tenant: Pubkey)
    requires TryFromSlice(record.data).Some?
    ensures var other := record.(data := Serialize(Decoded(record).(tenantPubkey := tenant)));
      var pay, payOther := PayRentOutcome(rt, record, rest, amount), PayRentOutcome(rt, other, rest, amount);
      var dep, depOther := DepositSecurityOutcome(rt, record, rest, amount), DepositSecurityOutcome(rt, other, rest, amount);
      && payOther.Ok? == pay.Ok?
      && depOther.Ok? == dep.Ok?
      && (Writes(pay) ==> payOther == Ok(Effect(pay.value.transfer, Some(pay.value.written.value.(tenantPubkey := tenant)))))
      && (Writes(dep) ==> depOther == Ok(Effect(dep.value.transfer, Some(dep.value.written.value.(tenantPubkey := tenant)))))
  {
    DecodeSerialized(Decoded(record).(tenantPubkey := tenant));
  }

  /**
    PayRent does not require the deposit: on a DepositPending record it is accepted,
    and the last payment completes the agreement without an Active phase.
  */
  lemma PayRentAcceptedWhileDepositPending(rt: Runtime, record: RecordAccount, rest: seq<Account>)
    requires record.owner == rt.programId && |rest| >= 3
    requires rest[0].isSigner && rest[0].key != rest[1].key
    requires DecodesInitialized(record.data)
    requires var r := Decoded(record);
      r.status == 1 && r.ownerPubkey == rest[1].key && rest[0].lamports >= r.rentAmount && r.remainingPayments > 0
    ensures var r, o := Decoded(record), PayRentOutcome(rt, record, rest, Decoded(record).rentAmount);
      && Writes(o)
      && o.value.written.value.status == (if r.remainingPayments == 1 then 3 else 1)
  {
  }

  /** With no payments left on a record that is neither Completed nor Terminated, `remaining_payments -= 1` overflows. */
  lemma PayRentUnderflowPanics(rt: Runtime, record: RecordAccount, rest: seq<Account>)
    requires record.owner == rt.programId && |rest| >= 3
    requires rest[0].isSigner && rest[0].key != rest[1].key
    requires DecodesInitialized(record.data)
    requires var r := Decoded(record);
      r.status != 3 && r.status != 4 && r.ownerPubkey == rest[1].key
      && rest[0].lamports >= r.rentAmount && r.remainingPayments == 0
    ensures PayRentOutcome(rt, record, rest, Decoded(record).rentAmount) == Err(Panicked)
  {
  }

  /** The overflow is reachable: an agreement initialized with duration 0 panics on its first payment. */
  lemma {:induction false} ZeroDurationPaymentPanics(rt: Runtime, record: RecordAccount, sysvar: Account, tenant: Account, owner: Account, system: Account, terms: AgreementTerms)
    requires InitializeRentContractOutcome(rt, record, [sysvar], terms).Ok?
    requires terms.duration == 0 && terms.ownerPubkey == owner.key
    requires tenant.isSigner && tenant.key != owner.key && tenant.lamports >= terms.rentAmount
    ensures var after := Persisted(record, InitializeRentContractOutcome(rt, record, [sysvar], terms));
      PayRentOutcome(rt, after, [tenant, owner, system], terms.rentAmount) == Err(Panicked)
  {
    var w := InitializeRentContractOutcome(rt, record, [sysvar], terms).value.written.value;
    DecodeSerialized(w);
  }

  // ---------------------------------------------------------------------------
  // Termination.

  /** TerminateEarly reads no account besides the record: it needs no signature from anyone. */
  lemma TerminateNeedsNoSigner(rt: Runtime, record: RecordAccount, rest: seq<Account>, other: seq<Account>)
    ensures TerminateEarlyOutcome(rt, record, rest) == TerminateEarlyOutcome(rt, record, other)
  {
  }

  /** A terminated record cannot be terminated again, and the failed attempt writes nothing. */
  lemma {:induction false} TerminateTwiceFails(rt: Runtime, record: RecordAccount, rest: seq<Account>)
    requires TerminateEarlyOutcome(rt, record, rest).Ok?
    ensures var after := Persisted(record, TerminateEarlyOutcome(rt, record, rest));
      && TerminateEarlyOutcome(rt, after, rest) == Err(Custom(4))
      && Persisted(after, TerminateEarlyOutcome(rt, after, rest)) == after
  {
    var w := TerminateEarlyOutcome(rt, record, rest).value.written.value;
    DecodeSerialized(w);
  }

  // ---------------------------------------------------------------------------
  // The extension handshake.

  /** Request and Confirm ask only for some signer: which key signed does not matter. */
  lemma ExtensionIgnoresSignerIdentity(rt: Runtime, record: RecordAccount, signer: Account, other: Account, extension: uint8)
    requires signer.isSigner && other.isSigner
    ensures ExtendContractDurationRequestOutcome(rt, record, [signer], extension)
         == ExtendContractDurationRequestOutcome(rt, record, [other], extension)
    ensures ExtendContractDurationConfirmOutcome(rt, record, [signer], extension)
         == ExtendContractDurationConfirmOutcome(rt, record, [other], extension)
  {
  }

  /**
    Request then Confirm: confirming any other value fails with InvalidInstructionParameter
    and writes nothing; confirming the requested value adds it to the duration and to the
    remaining payments and clears the request.
  */
  lemma {:induction false} ExtensionHandshake(rt: Runtime, record: RecordAccount, tenant: Account, owner: Account, extension: uint8, mismatch: uint8)
    requires record.owner == rt.programId && tenant.isSigner && owner.isSigner
    requires TryFromSlice(record.data).Some? && Decoded(record).status == 2
    requires Decoded(record).duration + extension < 0x100 && Decoded(record).remainingPayments + extension < 0x100
    requires mismatch != extension
    ensures var r := Decoded(record);
      var requested := ExtendContractDurationRequestOutcome(rt, record, [tenant], extension);
      var pending := Persisted(record, requested);
      && requested.Ok?
      && TryFromSlice(pending.data) == Some(r.(durationExtensionRequest := extension))
      && ExtendContractDurationConfirmOutcome(rt, pending, [owner], mismatch) == Err(Custom(6))
      && ExtendContractDurationConfirmOutcome(rt, pending, [owner], extension)
         == Ok(Effect(None, Some(r.(duration := r.duration + extension,
                                    remainingPayments := r.remainingPayments + extension,
                                    durationExtensionRequest := 0))))
  {
    DecodeSerialized(Decoded(record).(durationExtensionRequest := extension));
  }

  /** Confirming 0 with no request pending succeeds and leaves the record bytes exactly as they were. */
  lemma {:induction false} ConfirmZeroWithoutRequestIsNoOp(rt: Runtime, record: RecordAccount, owner: Account)
    requires record.owner == rt.programId && owner.isSigner
    requires TryFromSlice(record.data).Some?
    requires Decoded(record).status == 2 && Decoded(record).durationExtensionRequest == 0
    ensures ExtendContractDurationConfirmOutcome(rt, record, [owner], 0).Ok?
    ensures Persisted(record, ExtendContractDurationConfirmOutcome(rt, record, [owner], 0)) == record
  {
    var r := Decoded(record);
    assert r.(duration := r.duration, remainingPayments := r.remainingPayments, durationExtensionRequest := 0) == r;
    SerializeDecoded(record.data);
  }

  /** Termination does not clear a pending extension request. */
  lemma TerminateKeepsPendingRequest(rt: Runtime, record: RecordAccount, rest: seq<Account>)
    requires TerminateEarlyOutcome(rt, record, rest).Ok?
    ensures TerminateEarlyOutcome(rt, record, rest).value.written.value.durationExtensionRequest
         == Decoded(record).durationExtensionRequest
  {
  }

  // ---------------------------------------------------------------------------
  // A lease paid month by month.

  /** `n` PayRent calls with the same accounts and amount, stopping at the first failure. */
  function PayRentTimes(rt: Runtime, record: RecordAccount, rest: seq<Account>, amount: uint64, n: nat): Result<RecordAccount, ProgramError>
    decreases n
  {
    if n == 0 then Ok(record)
    else
      var o := PayRentOutcome(rt, record, rest, amount);
      if o.Err? then Err(o.error)
      else PayRentTimes(rt, Persisted(record, o), rest, amount, n - 1)
  }

  /** The accounts a rent payment presents are in order: a signing tenant with funds, the stored owner, distinct keys. */
  predicate PaysRent(rt: Runtime, record: RecordAccount, rest: seq<Account>)
  {
    && record.owner == rt.programId
    && DecodesInitialized(record.data)
    && |rest| >= 3
    && rest[0].isSigner && rest[0].key != rest[1].key
    && rest[1].key == Decoded(record).ownerPubkey
    && rest[0].lamports >= Decoded(record).rentAmount
  }

  /**
    Each of `n` payments succeeds on a DepositPending or Active record with at least
    `n` payments left; the count goes down by exactly `n`, the status becomes
    Completed exactly when the count reaches 0, and nothing else changes.
  */
  lemma {:induction false} RentPaymentsCountDown(rt: Runtime, record: RecordAccount, rest: seq<Account>, n: nat)
    requires PaysRent(rt, record, rest)
    requires Decoded(record).status == 1 || Decoded(record).status == 2
    requires n <= Decoded(record).remainingPayments
    ensures var paid := PayRentTimes(rt, record, rest, Decoded(record).rentAmount, n);
      && paid.Ok?
      && paid.value.owner == record.owner && paid.value.lamports == record.lamports
      && TryFromSlice(paid.value.data) == Some(AfterPayments(Decoded(record), n))
    decreases n
  {
    if n > 0 {
      var r := Decoded(record);
      var next := Persisted(record, PayRentOutcome(rt, record, rest, r.rentAmount));
      OnePayment(rt, record, rest);
      PayRentTimesStep(rt, record, rest, r.rentAmount, n);
      if n > 1 {
        RentPaymentsCountDown(rt, next, rest, n - 1);
        AfterPaymentsSplit(r, n);
      }
    }
  }

  /** The record after `n` accepted payments: `n` fewer due, Completed once none are. */
  function AfterPayments(r: RentAgreement, n: nat): (w: RentAgreement)
    requires n <= r.remainingPayments
    ensures w.remainingPayments + n == r.remainingPayments
  {
    r.(remainingPayments := r.remainingPayments - n,
       status := if n > 0 && n == r.remainingPayments then 3 else r.status)
  }

  lemma AfterPaymentsSplit(r: RentAgreement, n: nat)
    requires 1 < n <= r.remainingPayments
    ensures AfterPayments(AfterPayments(r, 1), n - 1) == AfterPayments(r, n)
  {
  }

  /** A successful first payment leaves the remaining `n - 1` to run on the record it wrote. */
  lemma PayRentTimesStep(rt: Runtime, record: RecordAccount, rest: seq<Account>, amount: uint64, n: nat)
    requires n > 0 && PayRentOutcome(rt, record, rest, amount).Ok?
    ensures PayRentTimes(rt, record, rest, amount, n)
         == PayRentTimes(rt, Persisted(record, PayRentOutcome(rt, record, rest, amount)), rest, amount, n - 1)
  {
  }

  /** One payment on a DepositPending or Active record with payments due: the count drops by one and the record reads back. */
  lemma OnePayment(rt: Runtime, record: RecordAccount, rest: seq<Account>)
    requires PaysRent(rt, record, rest)
    requires Decoded(record).status == 1 || Decoded(record).status == 2
    requires Decoded(record).remainingPayments > 0
    ensures var r := Decoded(record);
      var o := PayRentOutcome(rt, record, rest, r.rentAmount);
      var next := Persisted(record, o);
      && o.Ok?
      && next.owner == record.owner && next.lamports == record.lamports
      && TryFromSlice(next.data) == Some(AfterPayments(r, 1))
      && PaysRent(rt, next, rest)
  {
    var r := Decoded(record);
    DecodeSerialized(PayRentOutcome(rt, record, rest, r.rentAmount).value.written.value);
  }

  /** Initialize on a zeroed, rent-exempt record writes a DepositPending record with the terms and a full payment count. */
  lemma {:induction false} LeaseOpens(rt: Runtime, record: RecordAccount, sysvar: Account, terms: AgreementTerms)
    requires record.owner == rt.programId && sysvar.key == rt.rentSysvarId
    requires |record.data| == RecordLen && record.data[0] == 0
    requires rt.isExempt(record.lamports, RecordLen)
    ensures var o := InitializeRentContractOutcome(rt, record, [sysvar], terms);
      var pending := Persisted(record, o);
      && o.Ok?
      && pending.owner == record.owner && pending.lamports == record.lamports
      && TryFromSlice(pending.data) == Some(RentAgreement(
           1, terms.ownerPubkey, terms.tenantPubkey, terms.securityEscrowPubkey,
           terms.securityDeposit, terms.rentAmount, terms.duration, terms.duration,
           terms.startMonth, terms.startYear, 0))
  {
    StatusNotValidated(record.data);
    var o := InitializeRentContractOutcome(rt, record, [sysvar], terms);
    DecodeSerialized(o.value.written.value);
  }

  /** The deposit of the agreed amount into the agreed escrow moves a DepositPending record to Active. */
  lemma {:induction false} DepositActivates(rt: Runtime, record: RecordAccount, tenant: Account, escrow: Account, system: Account)
    requires record.owner == rt.programId
    requires TryFromSlice(record.data).Some? && Decoded(record).status == 1
    requires escrow.key == Decoded(record).securityEscrowPubkey && tenant.key != escrow.key
    requires tenant.isSigner && tenant.lamports >= Decoded(record).securityDeposit
    ensures var r := Decoded(record);
      var o := DepositSecurityOutcome(rt, record, [tenant, escrow, system], r.securityDeposit);
      var active := Persisted(record, o);
      && o == Ok(Effect(Some(Transfer(tenant.key, escrow.key, r.securityDeposit)), Some(r.(status := 2))))
      && active.owner == record.owner && active.lamports == record.lamports
      && TryFromSlice(active.data) == Some(r.(status := 2))
  {
    DecodeSerialized(Decoded(record).(status := 2));
  }

  /**
    A twelve-month lease: Initialize with deposit 500, rent 1000
    and 12 months; DepositSecurity(500) makes it Active; twelve PayRent(1000) calls
    complete it, on the twelfth; a thirteenth fails with RentAlreadyFullyPaid.
  */
  lemma {:induction false} TwelveMonthLease(rt: Runtime, record: RecordAccount, sysvar: Account, tenant: Account, owner: Account, escrow: Account, system: Account, month: uint8, year: uint16)
    requires record.owner == rt.programId && sysvar.key == rt.rentSysvarId
    requires |record.data| == RecordLen && record.data[0] == 0
    requires rt.isExempt(record.lamports, RecordLen)
    requires tenant.isSigner && tenant.lamports >= 1000
    requires tenant.key != owner.key && tenant.key != escrow.key
    ensures var terms := AgreementTerms(owner.key, tenant.key, escrow.key, 500, 1000, 12, month, year);
      var pending := Persisted(record, InitializeRentContractOutcome(rt, record, [sysvar], terms));
      var active := Persisted(pending, DepositSecurityOutcome(rt, pending, [tenant, escrow, system], 500));
      var paid := PayRentTimes(rt, active, [tenant, owner, system], 1000, 12);
      && TryFromSlice(active.data).Some?
      && TryFromSlice(active.data).value.status == 2
      && paid.Ok?
      && TryFromSlice(paid.value.data).Some?
      && TryFromSlice(paid.value.data).value.status == 3
      && TryFromSlice(paid.value.data).value.remainingPayments == 0
      && PayRentOutcome(rt, paid.value, [tenant, owner, system], 1000) == Err(Custom(2))
  {
    var terms := AgreementTerms(owner.key, tenant.key, escrow.key, 500, 1000, 12, month, year);
    LeaseOpens(rt, record, sysvar, terms);
    var pending := Persisted(record, InitializeRentContractOutcome(rt, record, [sysvar], terms));
    DepositActivates(rt, pending, tenant, escrow, system);
    var active := Persisted(pending, DepositSecurityOutcome(rt, pending, [tenant, escrow, system], 500));
    RentPaymentsCountDown(rt, active, [tenant, owner, system], 12);
    var paid := PayRentTimes(rt, active, [tenant, owner, system], 1000, 12).value;
    PayRentReportsFirstFailedGuard(rt, paid, [tenant, owner, system], 1000);
  }

  /**
    The extension scenario: on an Active record, RequestContractDurationExtension(3);
    ConfirmContractDurationExtension(2) fails with InvalidInstructionParameter and the
    request stays 3; ConfirmContractDurationExtension(3) adds 3 months and clears it.
  */
  lemma {:induction false} ExtensionScenario(rt: Runtime, record: RecordAccount, tenant: Account, owner: Account)
    requires record.owner == rt.programId && tenant.isSigner && owner.isSigner
    requires TryFromSlice(record.data).Some? && Decoded(record).status == 2
    requires Decoded(record).duration <= 12 && Decoded(record).remainingPayments <= 12
    ensures var r := Decoded(record);
      var pending := Persisted(record, ExtendContractDurationRequestOutcome(rt, record, [tenant], 3));
      var rejected := ExtendContractDurationConfirmOutcome(rt, pending, [owner], 2);
      var confirmed := ExtendContractDurationConfirmOutcome(rt, Persisted(pending, rejected), [owner], 3);
      && TryFromSlice(pending.data).value.durationExtensionRequest == 3
      && rejected == Err(Custom(6))
      && Persisted(pending, rejected) == pending
      && Writes(confirmed)
      && confirmed.value.written.value.duration == r.duration + 3
      && confirmed.value.written.value.remainingPayments == r.remainingPayments + 3
      && confirmed.value.written.value.durationExtensionRequest == 0
  {
    ExtensionHandshake(rt, record, tenant, owner, 3, 2);
  }
}
