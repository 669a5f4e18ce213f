/**
  The instruction decoder: a tag byte followed by fixed-offset little-endian fields.
  `Unpack` is the decoder as written; `UnpackIntended` sizes every read to its field.
*/
module Instruction {
  import opened Wrappers
  import opened Bytes
  import opened Errors

  /** The parameters of `InitializeRentContract`. */
  datatype AgreementTerms = AgreementTerms(
    ownerPubkey: Pubkey,
    tenantPubkey: Pubkey,
    securityEscrowPubkey: Pubkey,
    securityDeposit: uint64,
    rentAmount: uint64,
    duration: uint8,
    startMonth: uint8,
    startYear: uint16)

  /** `TrustedPropertiesInstruction`. */
  datatype TrustedPropertiesInstruction =
    | InitializeRentContract(terms: AgreementTerms)
    | DepositSecurity(securityDepositAmount: uint64)
    | PayRent(rentAmount: uint64)
    | TerminateEarly
    | RequestContractDurationExtension(extensionDuration: uint8)
    | ConfirmContractDurationExtension(extensionDuration: uint8)

  /** What every decoder failure reports: `InvalidInstruction.into()`, that is `Custom(0)`. */
  const InvalidInstructionError: ProgramError := ToProgramError(InvalidInstruction)

  /** `input.get(start..end)`. */
  function Get(input: seq<uint8>, start: nat, end: nat): Option<seq<uint8>>
  {
    if start <= end <= |input| then Some(input[start..end]) else None
  }

  /** `slice.try_into()` into `[u8; 1]`, then `u8::from_le_bytes`. */
  function IntoU8(slice: seq<uint8>): Option<uint8>
  {
    if |slice| == 1 then Some(slice[0]) else None
  }

  /** `slice.try_into()` into `[u8; 2]`, then `u16::from_le_bytes`. */
  function IntoU16(slice: seq<uint8>): Option<uint16>
  {
    if |slice| == 2 then Some(U16FromLe(slice)) else None
  }

  /** `slice.try_into()` into `[u8; 8]`, then `u64::from_le_bytes`. */
  function IntoU64(slice: seq<uint8>): Option<uint64>
  {
    if |slice| == 8 then Some(U64FromLe(slice)) else None
  }

  /** `unpack_u8` as written: it takes the eight-byte window `start..8 + start`. */
  function UnpackU8(input: seq<uint8>, start: nat): Result<uint8, ProgramError>
  {
    match Get(input, start, 8 + start)
    case None => Err(InvalidInstructionError)
    case Some(slice) =>
      match IntoU8(slice)
      case None => Err(InvalidInstructionError)
      case Some(v) => Ok(v)
  }

  /** `unpack_u16` as written: it takes the eight-byte window `start..8 + start`. */
  function UnpackU16(input: seq<uint8>, start: nat): Result<uint16, ProgramError>
  {
    match Get(input, start, 8 + start)
    case None => Err(InvalidInstructionError)
    case Some(slice) =>
      match IntoU16(slice)
      case None => Err(InvalidInstructionError)
      case Some(v) => Ok(v)
  }

  /** `unpack_u64`: succeeds exactly when eight bytes are available at `start`, and reads them little-endian. */
  function UnpackU64(input: seq<uint8>, start: nat): (r: Result<uint64, ProgramError>)
    ensures r.Ok? <==> start + 8 <= |input|
    ensures r.Ok? ==> r.value == U64FromLe(input[start..start + 8])
    ensures r.Err? ==> r.error == InvalidInstructionError
  {
    match Get(input, start, 8 + start)
    case None => Err(InvalidInstructionError)
    case Some(slice) =>
      match IntoU64(slice)
      case None => Err(InvalidInstructionError)
      case Some(v) => Ok(v)
  }

  /** An eight-byte window never converts to a one- or two-byte array, so the narrow readers always fail. */
  lemma NarrowReadersAlwaysFail(input: seq<uint8>, start: nat)
    ensures UnpackU8(input, start) == Err(InvalidInstructionError)
    ensures UnpackU16(input, start) == Err(InvalidInstructionError)
  {
  }

  /** `TrustedPropertiesInstruction::unpack` as written. */
  function Unpack(input: seq<uint8>): Result<TrustedPropertiesInstruction, ProgramError>
  {
    if |input| == 0 then Err(InvalidInstructionError)
    else
      var tag, rest := input[0], input[1..];
      if tag == 0 then
        // `&rest[..32]`, `&rest[32..64]` and `&rest[64..96]` panic on a shorter slice
        if |rest| < 96 then Err(Panicked)
        else
          var owner: Pubkey := rest[..32];
          var tenant: Pubkey := rest[32..64];
          var escrow: Pubkey := rest[64..96];
          var deposit :- UnpackU64(rest, 96);
          var rent :- UnpackU64(rest, 104);
          var duration :- UnpackU8(rest, 112);
          var month :- UnpackU8(rest, 113);
          var year :- UnpackU16(rest, 114);
          Ok(InitializeRentContract(AgreementTerms(owner, tenant, escrow, deposit, rent, duration, month, year)))
      else if tag == 1 then
        var amount :- UnpackU64(rest, 0);
        Ok(DepositSecurity(amount))
      else if tag == 2 then
        var amount :- UnpackU64(rest, 0);
        Ok(PayRent(amount))
      else if tag == 3 then
        Ok(TerminateEarly)
      else if tag == 4 then
        var extension :- UnpackU8(rest, 0);
        Ok(RequestContractDurationExtension(extension))
      else if tag == 5 then
        var extension :- UnpackU8(rest, 0);
        Ok(ConfirmContractDurationExtension(extension))
      else
        Err(InvalidInstructionError)
  }

  lemma EmptyInputFails()
    ensures Unpack([]) == Err(Custom(0))
  {
  }

  lemma UnknownTagFails(input: seq<uint8>)
    requires |input| > 0 && input[0] > 5
    ensures Unpack(input) == Err(Custom(0))
  {
  }

  /** Tag 3 needs no payload and ignores whatever follows. */
  lemma TerminateIgnoresPayload(rest: seq<uint8>)
    ensures Unpack([3] + rest) == Ok(TerminateEarly)
  {
  }

  /** Tags 1 and 2 need at least eight bytes after the tag, read the first eight, and ignore the rest. */
  lemma {:induction false} AmountTagsDecode(input: seq<uint8>)
    requires |input| > 0 && (input[0] == 1 || input[0] == 2)
    ensures Unpack(input).Ok? <==> |input| >= 9
    ensures Unpack(input).Err? ==> Unpack(input).error == Custom(0)
    ensures |input| >= 9 && input[0] == 1 ==> Unpack(input) == Ok(DepositSecurity(U64FromLe(input[1..9])))
    ensures |input| >= 9 && input[0] == 2 ==> Unpack(input) == Ok(PayRent(U64FromLe(input[1..9])))
  {
    if |input| >= 9 {
      assert input[1..][0..8] == input[1..9];
    }
  }

  /**
    As written, tags 0, 4 and 5 never decode: every one of them goes through a
    narrow reader. Tag 0 with fewer than 96 payload bytes panics before that.
  */
  lemma {:induction false} NarrowTagsNeverDecode(input: seq<uint8>)
    requires |input| > 0 && (input[0] == 0 || input[0] == 4 || input[0] == 5)
    ensures Unpack(input).Err?
    ensures Unpack(input).error == (if input[0] == 0 && |input| < 97 then Panicked else Custom(0))
  {
    NarrowReadersAlwaysFail(input[1..], 112);
    NarrowReadersAlwaysFail(input[1..], 0);
  }

  // ---------------------------------------------------------------------------
  // The decoder as intended: each field read through a window of its own width.

  /** `unpack_u8` with a one-byte window. */
  function UnpackU8Sized(input: seq<uint8>, start: nat): (r: Result<uint8, ProgramError>)
    ensures r.Ok? <==> start + 1 <= |input|
    ensures r.Ok? ==> r.value == input[start]
  {
    match Get(input, start, start + 1)
    case None => Err(InvalidInstructionError)
    case Some(slice) =>
      match IntoU8(slice)
      case None => Err(InvalidInstructionError)
      case Some(v) => Ok(v)
  }

  /** `unpack_u16` with a two-byte window. */
  function UnpackU16Sized(input: seq<uint8>, start: nat): (r: Result<uint16, ProgramError>)
    ensures r.Ok? <==> start + 2 <= |input|
    ensures r.Ok? ==> r.value == U16FromLe(input[start..start + 2])
  {
    match Get(input, start, start + 2)
    case None => Err(InvalidInstructionError)
    case Some(slice) =>
      match IntoU16(slice)
      case None => Err(InvalidInstructionError)
      case Some(v) => Ok(v)
  }

  /** `unpack` with every field read through a window of its own width; nothing else changes, so a short `InitializeRentContract` payload still panics on the key slices. */
  function UnpackIntended(input: seq<uint8>): Result<TrustedPropertiesInstruction, ProgramError>
  {
    if |input| == 0 then Err(InvalidInstructionError)
    else
      var tag, rest := input[0], input[1..];
      if tag == 0 then
        if |rest| < 96 then Err(Panicked)
        else
          var owner: Pubkey := rest[..32];
          var tenant: Pubkey := rest[32..64];
          var escrow: Pubkey := rest[64..96];
          var deposit :- UnpackU64(rest, 96);
          var rent :- UnpackU64(rest, 104);
          var duration :- UnpackU8Sized(rest, 112);
          var month :- UnpackU8Sized(rest, 113);
          var year :- UnpackU16Sized(rest, 114);
          Ok(InitializeRentContract(AgreementTerms(owner, tenant, escrow, deposit, rent, duration, month, year)))
      else if tag == 1 then
        var amount :- UnpackU64(rest, 0);
        Ok(DepositSecurity(amount))
      else if tag == 2 then
        var amount :- UnpackU64(rest, 0);
        Ok(PayRent(amount))
      else if tag == 3 then
        Ok(TerminateEarly)
      else if tag == 4 then
        var extension :- UnpackU8Sized(rest, 0);
        Ok(RequestContractDurationExtension(extension))
      else if tag == 5 then
        var extension :- UnpackU8Sized(rest, 0);
        Ok(ConfirmContractDurationExtension(extension))
      else
        Err(InvalidInstructionError)
  }

  /** The instruction layout a client sends: the tag, then each field at its declared width. */
  function Pack(ins: TrustedPropertiesInstruction): (b: seq<uint8>)
    ensures |b| >= 1
  {
    match ins
    case InitializeRentContract(t) =>
      [0] + t.ownerPubkey + t.tenantPubkey + t.securityEscrowPubkey
        + U64ToLe(t.securityDeposit) + U64ToLe(t.rentAmount)
        + [t.duration, t.startMonth] + U16ToLe(t.startYear)
    case DepositSecurity(amount) => [1] + U64ToLe(amount)
    case PayRent(amount) => [2] + U64ToLe(amount)
    case TerminateEarly => [3]
    case RequestContractDurationExtension(extension) => [4, extension]
    case ConfirmContractDurationExtension(extension) => [5, extension]
  }

  /** Where each `InitializeRentContract` field sits in the payload after the tag. */
  lemma {:induction false} PackedTermsLayout(t: AgreementTerms)
    ensures var rest := Pack(InitializeRentContract(t))[1..];
      && |rest| == 116
      && rest[..32] == t.ownerPubkey
      && rest[32..64] == t.tenantPubkey
      && rest[64..96] == t.securityEscrowPubkey
      && rest[96..104] == U64ToLe(t.securityDeposit)
      && rest[104..112] == U64ToLe(t.rentAmount)
      && rest[112] == t.duration
      && rest[113] == t.startMonth
      && rest[114..116] == U16ToLe(t.startYear)
  {
    var rest := Pack(InitializeRentContract(t))[1..];
    var p1 := t.ownerPubkey;
    var p2 := p1 + t.tenantPubkey;
    var p3 := p2 + t.securityEscrowPubkey;
    var p4 := p3 + U64ToLe(t.securityDeposit);
    var p5 := p4 + U64ToLe(t.rentAmount);
    var p6 := p5 + [t.duration, t.startMonth];
    assert rest == p6 + U16ToLe(t.startYear);
    assert rest[..112] == p6[..112] == p5;
    assert rest[..104] == p4;
    assert rest[..96] == p3;
    assert rest[..64] == p2;
    assert rest[..32] == p1;
  }

  /** The intended decoder inverts the client layout. */
  lemma {:induction false} UnpackIntendedRoundTrip(ins: TrustedPropertiesInstruction)
    ensures UnpackIntended(Pack(ins)) == Ok(ins)
  {
    match ins
    case InitializeRentContract(t) =>
      PackedTermsLayout(t);
      U64RoundTrip(t.securityDeposit);
      U64RoundTrip(t.rentAmount);
      U16RoundTrip(t.startYear);
    case DepositSecurity(amount) =>
      assert Pack(ins)[1..][0..8] == U64ToLe(amount);
      U64RoundTrip(amount);
    case PayRent(amount) =>
      assert Pack(ins)[1..][0..8] == U64ToLe(amount);
      U64RoundTrip(amount);
    case TerminateEarly =>
    case RequestContractDurationExtension(extension) =>
    case ConfirmContractDurationExtension(extension) =>
  }

  /**
    The converse of the round trip: whatever the intended decoder accepts is the
    client encoding of the instruction it returns, followed by bytes it ignores.
  */
  lemma {:induction false} UnpackIntendedReadsEncoding(input: seq<uint8>)
    requires UnpackIntended(input).Ok?
    ensures var p := Pack(UnpackIntended(input).value);
      |p| <= |input| && input[..|p|] == p
  {
    var rest := input[1..];
    var ins := UnpackIntended(input).value;
    assert input == [input[0]] + rest;
    match ins
    case InitializeRentContract(t) =>
      U64BytesRoundTrip(rest[96..104]);
      U64BytesRoundTrip(rest[104..112]);
      U16BytesRoundTrip(rest[114..116]);
      PackedTermsLayout(t);
      var packed := Pack(ins)[1..];
      assert packed == rest[..116] by {
        forall i | 0 <= i < 116
          ensures packed[i] == rest[i]
        {
          if i < 32 { assert packed[i] == packed[..32][i]; }
          else if i < 64 { assert packed[i] == packed[32..64][i - 32]; }
          else if i < 96 { assert packed[i] == packed[64..96][i - 64]; }
          else if i < 104 { assert packed[i] == packed[96..104][i - 96]; }
          else if i < 112 { assert packed[i] == packed[104..112][i - 104]; }
          else if i < 114 { }
          else { assert packed[i] == packed[114..116][i - 114]; }
        }
      }
      assert Pack(ins) == [0] + packed;
    case DepositSecurity(amount) =>
      U64BytesRoundTrip(rest[0..8]);
    case PayRent(amount) =>
      U64BytesRoundTrip(rest[0..8]);
    case TerminateEarly =>
    case RequestContractDurationExtension(extension) =>
    case ConfirmContractDurationExtension(extension) =>
  }

  /** Every failure of the intended decoder is `InvalidInstruction`, except the short `InitializeRentContract` payload, which panics. */
  lemma UnpackIntendedFailures(input: seq<uint8>)
    requires UnpackIntended(input).Err?
    ensures UnpackIntended(input).error == (if |input| > 0 && input[0] == 0 && |input| < 97 then Panicked else Custom(0))
  {
  }

  /** The decoder as written rejects every well-formed instruction that carries a one- or two-byte field. */
  lemma {:induction false} AsWrittenRejectsNarrowInstructions(ins: TrustedPropertiesInstruction)
    requires ins.InitializeRentContract? || ins.RequestContractDurationExtension? || ins.ConfirmContractDurationExtension?
    ensures Unpack(Pack(ins)) == Err(Custom(0))
    ensures UnpackIntended(Pack(ins)) == Ok(ins)
  {
    UnpackIntendedRoundTrip(ins);
    NarrowTagsNeverDecode(Pack(ins));
    if ins.InitializeRentContract? {
      PackedTermsLayout(ins.terms);
    }
  }

  /** On the amount-carrying and payload-free tags the two decoders agree on every input. */
  lemma {:induction false} DecodersAgreeOnWideTags(input: seq<uint8>)
    requires |input| > 0 && 1 <= input[0] <= 3
    ensures Unpack(input) == UnpackIntended(input)
  {
  }
}
