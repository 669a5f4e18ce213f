# Trusted Properties rent agreement — a Dafny model

The Trusted Properties program is a Solana on-chain program for a rental agreement between a
property owner and a tenant. One program-owned account, the rent agreement account, holds a
119-byte Borsh record:
- a status byte;
- the owner, tenant and escrow keys;
- the security deposit and monthly rent, in lamports;
- the duration and the payments still due, in months;
- the start month and year;
- a pending request to extend the duration.

Six instructions drive the record:
- `InitializeRentContract` fills in a zeroed record (status 0 → 1).
- `DepositSecurity` moves the deposit from tenant to escrow (1 → 2).
- `PayRent` moves one month's rent from tenant to owner and counts down the payments; the last
  payment sets status 3.
- `TerminateEarly` sets status 4.
- `RequestContractDurationExtension` and `ConfirmContractDurationExtension` form a tenant/owner
  handshake that adds months to an active agreement.

This project models that program core:
- `bytes.dfy`: fixed-width unsigned integers and little-endian byte encoding, with round trips.
- `errors.dfy`: the program's custom errors, their `ProgramError::Custom` codes, and the
  runtime's built-in errors. An arithmetic overflow panic appears as the outcome `Panicked`.
- `state.dfy`: the record, its status predicates, and the Borsh layout. It proves the
  serialize/deserialize round trips in both directions.
- `instruction.dfy`: the instruction decoder exactly as written, with its
  integer-width defect (see Findings). Next to it are a corrected decoder and the client's
  encoder, with the round trip proved in both directions for the corrected decoder.
  `process` decodes with the corrected decoder. With the decoder as written, tags 0, 4 and 5
  would never reach a handler.
- `processor.dfy`: each handler twice.
  - A pure `...Outcome` function states the reference semantics: which error is reported, when
    it succeeds, and which transfer it asks for and which record it writes back.
  - A method updates a `AgreementAccount` object in place. Its data buffer is an `array`, and
    the method runs the handler's guard chain step by step. It is proved to return what the
    function reports and to leave exactly the bytes the function writes.
- `lifecycle.dfy`: properties across handlers. It covers the status steps a write can take;
  that Completed and Terminated are final; that the parties and terms are kept, and so is the
  invariant that remaining payments never exceed the duration; which error each handler reports,
  guard by guard in the order it tests them;
  the extension handshake; and the twelve-month lease from initialization to completion.

Some behaviours of the program are modelled as written, although they look unintended.
Each is proved as a lemma:
- `TerminateEarly` checks no signer.
- The extension request and confirm accept any signer.
- `PayRent` and `DepositSecurity` never compare the signer with the stored tenant key.
- `PayRent` is accepted while the deposit is still pending.
- Termination keeps a pending extension request.
- Decoding does not validate the status byte.
- Initialize takes its accounts as `[record, Rent sysvar]`. This follows the handler; the
  instruction's own comment lists an escrow account in between.

The program's `u8` additions and subtractions (`remaining_payments -= 1`, `duration +=`,
`remaining_payments +=`) are modelled with Rust's checked arithmetic: an overflow is a panic,
the transaction fails and nothing is written.

## Model

| member | source | states |
|---|---|---|
| Bytes.Pow256Widths | src/program-rust/src/instruction.rs:155-162 | the powers of 256 that bound `u8`, `u16` and `u64` are 2^8, 2^16 and 2^64 |
| Bytes.LeValue | src/program-rust/src/instruction.rs:155-162 | a little-endian byte string denotes a number below 256^length |
| Bytes.LeValueOfLeBytes | src/program-rust/src/instruction.rs:155-162 | encoding a number in n little-endian bytes and reading it back gives the number |
| Bytes.LeBytesOfLeValue | src/program-rust/src/instruction.rs:155-162 | reading a byte string as a number and encoding it at the same width gives the bytes back |
| Bytes.U16RoundTrip | src/program-rust/src/state.rs:46-47 | `u16::from_le_bytes(to_le_bytes(x)) == x` |
| Bytes.U16BytesRoundTrip | src/program-rust/src/state.rs:46-47 | every 2-byte string is the encoding of the `u16` it denotes |
| Bytes.U64RoundTrip | src/program-rust/src/instruction.rs:155-162 | `u64::from_le_bytes(to_le_bytes(x)) == x` |
| Bytes.U64BytesRoundTrip | src/program-rust/src/instruction.rs:155-162 | every 8-byte string is the encoding of the `u64` it denotes |
| Errors.ToProgramError | src/program-rust/src/error.rs:38-42 | a program error becomes `ProgramError::Custom` with a code below the number of variants |
| Errors.FromCustomCode | src/program-rust/src/error.rs:8-36 | a custom code names a program error exactly when it is below 7, and then that error's code is the given one |
| Errors.CodesAreDeclarationIndices | src/program-rust/src/error.rs:8-42 | `InvalidInstruction` … `InvalidInstructionParameter` map to `Custom(0)` … `Custom(6)`, in declaration order |
| Errors.CustomCodeRoundTrip | src/program-rust/src/error.rs:38-42 | the custom code identifies the error it came from |
| Errors.ToProgramErrorInjective | src/program-rust/src/error.rs:38-42 | two different program errors never report the same `ProgramError` |
| State.DiscriminantsInDeclarationOrder | src/program-rust/src/state.rs:120-127 | `Uninitialized` … `Terminated` are the status bytes 0 … 4 |
| State.StatusPredicates | src/program-rust/src/state.rs:88-109 | initialized iff status ≠ 0, and deposit-pending, completed and terminated iff status 1, 3, 4; the last three exclude each other and each implies initialized |
| State.Serialize | src/program-rust/src/state.rs:16-51 | the Borsh encoding of the record is exactly 119 bytes |
| State.SerializeLayout | src/program-rust/src/state.rs:16-51 | field offsets in the record: status 0, owner 1, tenant 33, escrow 65, deposit 97, rent 105, duration 113, remaining 114, month 115, year 116-117, extension request 118 |
| State.TryFromSlice | src/program-rust/src/processor.rs:103-108 | `try_from_slice` succeeds exactly on 119-byte buffers |
| State.StatusNotValidated | src/program-rust/src/state.rs:20 | any 119-byte buffer decodes, and the status is the first byte whatever its value (bytes above 4 are not rejected) |
| State.DecodeSerialized | src/program-rust/src/state.rs:16-51 | decoding an encoded record gives the record back |
| State.SerializeDecoded | src/program-rust/src/state.rs:16-51 | encoding a decoded 119-byte buffer gives the buffer back, so the encoding is a bijection |
| State.ZeroBufferIsUninitialized | src/program-rust/src/state.rs:88-92 | a zero-filled new account decodes to an uninitialized record |
| Instruction.UnpackU64 | src/program-rust/src/instruction.rs:155-162 | succeeds iff 8 bytes are available at `start`; the value is their little-endian reading; the error is `Custom(0)` |
| Instruction.NarrowReadersAlwaysFail | src/program-rust/src/instruction.rs:137-153 | `unpack_u8` and `unpack_u16` fail with `Custom(0)` on every input, since an 8-byte window never fits `[u8; 1]` or `[u8; 2]` |
| Instruction.EmptyInputFails | src/program-rust/src/instruction.rs:76-78 | empty instruction data fails with `InvalidInstruction` (`Custom(0)`) |
| Instruction.UnknownTagFails | src/program-rust/src/instruction.rs:131-132 | a tag above 5 fails with `Custom(0)` |
| Instruction.TerminateIgnoresPayload | src/program-rust/src/instruction.rs:116-117 | tag 3 decodes to `TerminateEarly` whatever follows it |
| Instruction.AmountTagsDecode | src/program-rust/src/instruction.rs:104-114 | tags 1 and 2 decode iff 8 amount bytes follow, to `DepositSecurity`/`PayRent` with their little-endian value; otherwise `Custom(0)` |
| Instruction.NarrowTagsNeverDecode | src/program-rust/src/instruction.rs:80-129 | tags 0, 4 and 5 never decode: tag 0 with fewer than 96 payload bytes panics on the key slices, everything else fails with `Custom(0)` |
| Instruction.UnpackU8Sized | src/program-rust/src/instruction.rs:137-144 | corrected reader: succeeds iff one byte is available, returning it |
| Instruction.UnpackU16Sized | src/program-rust/src/instruction.rs:146-153 | corrected reader: succeeds iff two bytes are available, returning their little-endian value |
| Instruction.Pack | src/program-rust/src/instruction.rs:10-70 | the client encoding of an instruction is a tag byte followed by its fields |
| Instruction.PackedTermsLayout | src/program-rust/src/instruction.rs:82-90 | in the encoded `InitializeRentContract` payload the fields sit where the decoder reads them (keys 0/32/64, amounts 96/104, duration 112, month 113, year 114) |
| Instruction.UnpackIntendedRoundTrip | src/program-rust/src/instruction.rs:75-162 | with correctly sized readers, decoding the client encoding of any instruction gives it back |
| Instruction.AsWrittenRejectsNarrowInstructions | src/program-rust/src/instruction.rs:82-129 | the encodings of `InitializeRentContract`, `RequestContractDurationExtension` and `ConfirmContractDurationExtension` are rejected with `Custom(0)` by the decoder as written, and accepted by the corrected one |
| Instruction.UnpackIntendedReadsEncoding | src/program-rust/src/instruction.rs:75-162 | whatever the corrected decoder accepts begins with the client encoding of the instruction it returns; trailing bytes are ignored |
| Instruction.UnpackIntendedFailures | src/program-rust/src/instruction.rs:75-134 | every failure of the corrected decoder is `InvalidInstruction` (`Custom(0)`), except a tag-0 payload shorter than 96 bytes, which panics on the key slices |
| Instruction.DecodersAgreeOnWideTags | src/program-rust/src/instruction.rs:104-117 | on tags 1, 2 and 3 the two decoders agree on every input |
| Processor.InitializeRentContractOutcome | src/program-rust/src/processor.rs:69-132 | wrong program owner gives `IncorrectProgramId` first. Succeeds iff the second account is the Rent sysvar, the record is rent-exempt, 119 bytes and status 0. It then writes status DepositPending, the terms, remaining = duration and no pending request, and moves no lamports |
| Processor.PayRentOutcome | src/program-rust/src/processor.rs:136-225 | owner check first. Succeeds iff 3 more accounts, a signing tenant with enough lamports, and either tenant = owner key (no effect) or a decoded initialized record with that owner key, not Completed or Terminated, the agreed amount and payments left. It then transfers tenant→owner, decrements the count, sets Completed at 0 and changes nothing else |
| Processor.DepositSecurityOutcome | src/program-rust/src/processor.rs:233-314 | owner check first. Succeeds iff 3 more accounts, a signing tenant with enough lamports, and either tenant = escrow key (no effect) or an initialized DepositPending record with that escrow key and the agreed deposit. It then transfers tenant→escrow and sets Active only |
| Processor.TerminateEarlyOutcome | src/program-rust/src/processor.rs:318-354 | owner check first. Succeeds iff the record decodes, is initialized and is neither Completed nor Terminated. It then sets status Terminated and remaining 0 and keeps everything else |
| Processor.ExtendContractDurationRequestOutcome | src/program-rust/src/processor.rs:358-397 | owner check first. Succeeds iff some account signs and the record is Active. It then stores the requested extension and nothing else |
| Processor.ExtendContractDurationConfirmOutcome | src/program-rust/src/processor.rs:401-447 | owner check first. Succeeds iff some account signs, the record is Active, the value equals the pending request and the `u8` sums do not overflow. It then adds it to duration and remaining and clears the request |
| Processor.DispatchOutcome | src/program-rust/src/processor.rs:37-64 | every instruction is rejected with `IncorrectProgramId` when the record is not owned by the program |
| Processor.ProcessOutcome | src/program-rust/src/processor.rs:32-65 | a decoding error is reported before any account is looked at; otherwise the owner check comes first |
| Lifecycle.ProcessRunsEncodedInstructions | src/program-rust/src/processor.rs:32-65 | `process` on the client encoding of any instruction has exactly that instruction's handler outcome |
| Lifecycle.MalformedInstructionWritesNothing | src/program-rust/src/processor.rs:36 | instruction data that does not decode fails and leaves the record untouched |
| Processor.AgreementAccount.Store | src/program-rust/src/processor.rs:127 | serializing into the account's buffer leaves exactly the record's 119-byte encoding there |
| Processor.InitializeRentContract | src/program-rust/src/processor.rs:69-132 | returns what `InitializeRentContractOutcome` reports; the buffer afterwards holds its write-back, or is unchanged on error |
| Processor.PayRent | src/program-rust/src/processor.rs:136-225 | the same agreement with `PayRentOutcome` |
| Processor.DepositSecurity | src/program-rust/src/processor.rs:233-314 | the same agreement with `DepositSecurityOutcome` |
| Processor.TerminateEarly | src/program-rust/src/processor.rs:318-354 | the same agreement with `TerminateEarlyOutcome` |
| Processor.ExtendContractDurationRequest | src/program-rust/src/processor.rs:358-397 | the same agreement with `ExtendContractDurationRequestOutcome` |
| Processor.ExtendContractDurationConfirm | src/program-rust/src/processor.rs:401-447 | the same agreement with `ExtendContractDurationConfirmOutcome` |
| Processor.Process | src/program-rust/src/processor.rs:32-65 | decodes, dispatches, and agrees with `ProcessOutcome` on result and buffer |
| Lifecycle.WritesFollowStatusSteps | src/program-rust/src/processor.rs:116-442 | every write-back goes 0→1, 1→2, or from an initialized status other than 3 and 4 to itself, 3 or 4; none returns to Uninitialized |
| Lifecycle.CompletedAndTerminatedAreFinal | src/program-rust/src/processor.rs:186-194 | no instruction writes a Completed or Terminated record |
| Lifecycle.InitializeEstablishesInvariant | src/program-rust/src/processor.rs:122-126 | after Initialize, remaining payments = duration and no extension is pending |
| Lifecycle.WritesKeepTermsAndCount | src/program-rust/src/processor.rs:136-447 | every write other than Initialize starts from an initialized record and keeps its parties, amounts and start date, and keeps remaining ≤ duration |
| Lifecycle.SecondInitializeFails | src/program-rust/src/processor.rs:110-114 | initializing an initialized record fails with `AccountAlreadyInitialized` and writes nothing |
| Lifecycle.InitializeReportsFirstFailedGuard | src/program-rust/src/processor.rs:84-114 | with the record owned by the program: no second account → `NotEnoughAccountKeys`, not the Rent sysvar → `InvalidArgument`, not rent-exempt → `AccountNotRentExempt`, not 119 bytes → `InvalidAccountData`, status ≠ 0 → `AccountAlreadyInitialized`, each only once the earlier checks pass |
| Lifecycle.DepositSecurityReportsFirstFailedGuard | src/program-rust/src/processor.rs:243-292 | fewer than three accounts → `NotEnoughAccountKeys`, no signer → `MissingRequiredSignature`, too few lamports → `InsufficientFunds`; then, with distinct tenant and escrow: not 119 bytes → `InvalidAccountData`, status 0 → `UninitializedAccount`, other escrow key → `InvalidAccountData`, not DepositPending → `SecurityAlreadyDeposited`, other amount → `IncorrectPaymentAmount`, each only once the earlier checks pass |
| Lifecycle.PayRentReportsFirstFailedGuard | src/program-rust/src/processor.rs:146-218 | fewer than three accounts → `NotEnoughAccountKeys`, no signer → `MissingRequiredSignature`, too few lamports → `InsufficientFunds`; then, with distinct tenant and owner: not 119 bytes → `InvalidAccountData`, status 0 → `UninitializedAccount`, other owner key → `InvalidAccountData`, Completed → `RentAlreadyFullyPaid`, Terminated → `RentAgreementTerminated`, other amount → `IncorrectPaymentAmount`, no payment due → panic, each only once the earlier checks pass |
| Lifecycle.TerminateEarlyReportsFirstFailedGuard | src/program-rust/src/processor.rs:327-347 | not 119 bytes → `InvalidAccountData`, status 0 → `UninitializedAccount`, Completed → `RentAlreadyFullyPaid`, Terminated → `RentAgreementTerminated` |
| Lifecycle.ExtendContractDurationRequestReportsFirstFailedGuard | src/program-rust/src/processor.rs:368-390 | no second account → `NotEnoughAccountKeys`, not signed → `MissingRequiredSignature`, not 119 bytes → `InvalidAccountData`, status 0 → `UninitializedAccount`, initialized but not Active → `InvalidAgreementStatus` (`Custom(5)`) |
| Lifecycle.ExtendContractDurationConfirmReportsFirstFailedGuard | src/program-rust/src/processor.rs:411-442 | the same checks as the request, then a value other than the pending request → `InvalidInstructionParameter` (`Custom(6)`), then a `duration` sum past 255 → panic, then a `remaining_payments` sum past 255 → panic |
| Lifecycle.PaymentsIgnoreStoredTenant | src/program-rust/src/processor.rs:136-314 | whether PayRent or DepositSecurity is accepted, and what it transfers, do not depend on the stored tenant key, and the record it writes differs only in that key: the signer is never compared with it |
| Lifecycle.PayRentAcceptedWhileDepositPending | src/program-rust/src/processor.rs:172-221 | a DepositPending record accepts rent; the last payment completes it without it ever becoming Active |
| Lifecycle.PayRentUnderflowPanics | src/program-rust/src/processor.rs:217-218 | paying rent with no payments left on a record that is neither Completed nor Terminated overflows the `u8` and panics |
| Lifecycle.ZeroDurationPaymentPanics | src/program-rust/src/processor.rs:122-123 | that overflow is reachable: an agreement initialized with duration 0 panics on its first payment |
| Lifecycle.TerminateNeedsNoSigner | src/program-rust/src/processor.rs:318-325 | the outcome of `TerminateEarly` does not depend on any account besides the record, so it needs no signature |
| Lifecycle.TerminateTwiceFails | src/program-rust/src/processor.rs:344-347 | terminating a terminated record fails with `RentAgreementTerminated` and writes nothing |
| Lifecycle.TerminateKeepsPendingRequest | src/program-rust/src/processor.rs:349-351 | termination leaves a pending extension request in place |
| Lifecycle.ExtensionIgnoresSignerIdentity | src/program-rust/src/processor.rs:368-373 | request and confirm give the same outcome whichever key signs |
| Lifecycle.ExtensionHandshake | src/program-rust/src/processor.rs:392-443 | after a request for e on an Active record, confirming any other value fails with `InvalidInstructionParameter`, and confirming e adds e to duration and remaining and clears the request |
| Lifecycle.ConfirmZeroWithoutRequestIsNoOp | src/program-rust/src/processor.rs:435-444 | confirming 0 with no request pending succeeds and leaves the record bytes unchanged |
| Lifecycle.RentPaymentsCountDown | src/program-rust/src/processor.rs:217-222 | n payments on a DepositPending or Active record with at least n due all succeed. The count falls by exactly n, the status becomes Completed exactly when it reaches 0, and nothing else changes |
| Lifecycle.LeaseOpens | src/program-rust/src/processor.rs:103-127 | Initialize on a zeroed rent-exempt record reads back as the DepositPending record with the given terms |
| Lifecycle.DepositActivates | src/program-rust/src/processor.rs:276-311 | depositing the agreed amount to the agreed escrow transfers it and reads back as the Active record |
| Lifecycle.TwelveMonthLease | src/program-rust/src/processor.rs:69-314 | Initialize(500, 1000, 12 months), then Deposit(500), then twelve payments of 1000 reach Completed with nothing due; a thirteenth fails with `RentAlreadyFullyPaid` |
| Lifecycle.ExtensionScenario | src/program-rust/src/processor.rs:358-447 | request 3; confirm 2 fails with `InvalidInstructionParameter`, leaving the request at 3; confirm 3 adds 3 months and clears it |

## Left out

- The system program's `invoke` of `system_instruction::transfer` is an `Effect` naming the transfer. Its execution and its own failures are not modelled, and neither are lamport balances after it: account balances are a snapshot taken before the call.
- The Rent sysvar's contents: `Rent::from_account_info` is modelled as accepting only the account whose key is the sysvar id, and `is_exempt` is an uninterpreted parameter of the runtime.
- `msg!` logging, and the `RefCell` borrow of account data, which cannot fail in a single-threaded handler.
- `try_data_len()?` inside the error messages is not modelled; it fails only when the borrow fails.
- A missing record account (`NotEnoughAccountKeys` for the first account): every handler is given the record account, and only the accounts after it can be missing.
- Aliasing between the record account and the other accounts: the other accounts are values, so one account passed twice is not modelled.
- The system program account passed to `PayRent`/`DepositSecurity` is never validated by the program, and the model does not look at it either.
- `SecurityEscrowAccount` (state.rs) is declared but never read or written by the processor, so it has no model.
- `entrypoint.rs` and `lib.rs` only forward to `Processor::process`; they are not part of this model.
- Processor.ProcessOutcome: decodes with the corrected decoder `UnpackIntended`, so `RequestContractDurationExtension`, `ConfirmContractDurationExtension` and `InitializeRentContract` data reach their handlers. The program as written rejects them with `Custom(0)` (see Findings and `Instruction.AsWrittenRejectsNarrowInstructions`). The same holds for Processor.Process.
- Processor.ExtendContractDurationConfirm: models the `u8` additions with overflow checks on, where an overflow panics. A release build without overflow checks would wrap instead; that is not modelled.
- Processor.PayRent: models `remaining_payments -= 1` on 0 with overflow checks on, where it panics. The wrapping build would store 255; that is not modelled.

## Findings

| source | as written | input that shows it | evidently intended | confidence | as-written member | corrected member |
|---|---|---|---|---|---|---|
| src/program-rust/src/instruction.rs:137-153 | `unpack_u8`/`unpack_u16` take an 8-byte window `start..8 + start` and convert it into `[u8; 1]`/`[u8; 2]`. That conversion always fails, so tags 0, 4 and 5 can never decode | `[4, 3]`, the encoding of `RequestContractDurationExtension(3)`, is rejected with `Custom(0)`, as is every `InitializeRentContract` encoding | windows of 1 and 2 bytes, so every client encoding decodes to its instruction | high, not executed | Instruction.AsWrittenRejectsNarrowInstructions | Instruction.UnpackIntendedRoundTrip |
