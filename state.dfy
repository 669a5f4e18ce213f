/**
  The persisted rent-agreement record: its fields, the status predicates over its
  first byte, and its fixed 119-byte Borsh encoding (fields concatenated in
  declaration order, integers little-endian, keys as 32 raw bytes).
*/
module State {
  import opened Wrappers
  import opened Bytes

  /** `AgreementStatus`: the lifecycle stage, stored in the record as its discriminant. */
  datatype AgreementStatus = Uninitialized | DepositPending | Active | Completed | Terminated
  {
    /** `status as u8`. */
    function Code(): uint8
    {
      match this
      case Uninitialized => 0
      case DepositPending => 1
      case Active => 2
      case Completed => 3
      case Terminated => 4
    }
  }

  /** The discriminants are 0 to 4 in declaration order. */
  lemma DiscriminantsInDeclarationOrder()
    ensures Uninitialized.Code() == 0 && DepositPending.Code() == 1 && Active.Code() == 2
    ensures Completed.Code() == 3 && Terminated.Code() == 4
  {
  }

  /**
    `RentAgreementAccount`. The status is kept as the raw byte the record holds:
    nothing restricts it to a discriminant.
  */
  datatype RentAgreement = RentAgreement(
    status: uint8,
    ownerPubkey: Pubkey,
    tenantPubkey: Pubkey,
    securityEscrowPubkey: Pubkey,
    securityDeposit: uint64,
    rentAmount: uint64,
    duration: uint8,
    remainingPayments: uint8,
    startMonth: uint8,
    startYear: uint16,
    durationExtensionRequest: uint8)

  /** The encoded size of a record: 1 + 3 * 32 + 2 * 8 + 3 * 1 + 2 + 1. */
  const RecordLen: nat := 119

  predicate IsInitialized(r: RentAgreement)
  {
    r.status != Uninitialized.Code()
  }

  predicate IsSecurityDepositPending(r: RentAgreement)
  {
    r.status == DepositPending.Code()
  }

  predicate IsCompleted(r: RentAgreement)
  {
    r.status == Completed.Code()
  }

  predicate IsTerminated(r: RentAgreement)
  {
    r.status == Terminated.Code()
  }

  /** Each predicate tests one status byte, so at most one of the last three holds, and each implies initialized. */
  lemma StatusPredicates(r: RentAgreement)
    ensures IsInitialized(r) <==> r.status != 0
    ensures IsSecurityDepositPending(r) <==> r.status == 1
    ensures IsCompleted(r) <==> r.status == 3
    ensures IsTerminated(r) <==> r.status == 4
    ensures !(IsSecurityDepositPending(r) && IsCompleted(r))
    ensures !(IsSecurityDepositPending(r) && IsTerminated(r))
    ensures !(IsCompleted(r) && IsTerminated(r))
    ensures IsSecurityDepositPending(r) || IsCompleted(r) || IsTerminated(r) ==> IsInitialized(r)
  {
  }

  /** Borsh `serialize`: the fields in declaration order. */
  function Serialize(r: RentAgreement): (b: seq<uint8>)
    ensures |b| == RecordLen
  {
    [r.status] + r.ownerPubkey + r.tenantPubkey + r.securityEscrowPubkey
      + U64ToLe(r.securityDeposit) + U64ToLe(r.rentAmount)
      + [r.duration, r.remainingPayments, r.startMonth]
      + U16ToLe(r.startYear) + [r.durationExtensionRequest]
  }

  /** Where each field sits in the encoding. */
  lemma {:induction false} SerializeLayout(r: RentAgreement)
    ensures var b := Serialize(r);
      && b[0] == r.status
      && b[1..33] == r.ownerPubkey
      && b[33..65] == r.tenantPubkey
      && b[65..97] == r.securityEscrowPubkey
      && b[97..105] == U64ToLe(r.securityDeposit)
      && b[105..113] == U64ToLe(r.rentAmount)
      && b[113] == r.duration
      && b[114] == r.remainingPayments
      && b[115] == r.startMonth
      && b[116..118] == U16ToLe(r.startYear)
      && b[118] == r.durationExtensionRequest
  {
    var b := Serialize(r);
    var p0 := [r.status];
    var p1 := p0 + r.ownerPubkey;
    var p2 := p1 + r.tenantPubkey;
    var p3 := p2 + r.securityEscrowPubkey;
    var p4 := p3 + U64ToLe(r.securityDeposit);
    var p5 := p4 + U64ToLe(r.rentAmount);
    var p6 := p5 + [r.duration, r.remainingPayments, r.startMonth];
    var p7 := p6 + U16ToLe(r.startYear);
    assert b == p7 + [r.durationExtensionRequest];
    assert b[..116] == p7[..116];
    assert b[..113] == p6[..113] == p5;
    assert b[..105] == p4;
    assert b[..97] == p3;
    assert b[..65] == p2;
    assert b[..33] == p1;
  }

  function ReadU8(b: seq<uint8>, pos: nat): Option<uint8>
  {
    if pos < |b| then Some(b[pos]) else None
  }

  function ReadU16(b: seq<uint8>, pos: nat): Option<uint16>
  {
    if pos + 2 <= |b| then Some(U16FromLe(b[pos..pos + 2])) else None
  }

  function ReadU64(b: seq<uint8>, pos: nat): Option<uint64>
  {
    if pos + 8 <= |b| then Some(U64FromLe(b[pos..pos + 8])) else None
  }

  function ReadPubkey(b: seq<uint8>, pos: nat): Option<Pubkey>
  {
    if pos + KeyLen <= |b| then Some(b[pos..pos + KeyLen]) else None
  }

  /**
    Borsh `deserialize`: each field in declaration order, starting where the
    previous one ended; fails as soon as a field runs past the end of the input.
    Returns the record and the number of bytes consumed.
  */
  function Deserialize(b: seq<uint8>): Option<(RentAgreement, nat)>
  {
    var status :- ReadU8(b, 0);
    var owner :- ReadPubkey(b, 1);
    var tenant :- ReadPubkey(b, 33);
    var escrow :- ReadPubkey(b, 65);
    var deposit :- ReadU64(b, 97);
    var rent :- ReadU64(b, 105);
    var duration :- ReadU8(b, 113);
    var remaining :- ReadU8(b, 114);
    var month :- ReadU8(b, 115);
    var year :- ReadU16(b, 116);
    var extension :- ReadU8(b, 118);
    Some((RentAgreement(status, owner, tenant, escrow, deposit, rent, duration, remaining, month, year, extension), 119))
  }

  /**
    Borsh `try_from_slice`: deserialize, then fail unless every input byte was consumed.
    So decoding succeeds exactly on buffers of the record's size.
  */
  function TryFromSlice(b: seq<uint8>): (r: Option<RentAgreement>)
    ensures r.Some? <==> |b| == RecordLen
  {
    match Deserialize(b)
    case None => None
    case Some((rec, consumed)) => if consumed == |b| then Some(rec) else None
  }

  /** Decoding does not validate the status: the first byte is taken as it is. */
  lemma StatusNotValidated(b: seq<uint8>)
    requires |b| == RecordLen
    ensures TryFromSlice(b).Some? && TryFromSlice(b).value.status == b[0]
  {
  }

  /** Decoding an encoded record gives the record back. */
  lemma {:induction false} DecodeSerialized(r: RentAgreement)
    ensures TryFromSlice(Serialize(r)) == Some(r)
  {
    SerializeLayout(r);
    U64RoundTrip(r.securityDeposit);
    U64RoundTrip(r.rentAmount);
    U16RoundTrip(r.startYear);
  }

  /** Encoding a decoded buffer gives the buffer back. */
  lemma {:induction false} SerializeDecoded(b: seq<uint8>)
    requires |b| == RecordLen
    ensures TryFromSlice(b).Some? && Serialize(TryFromSlice(b).value) == b
  {
    var r := TryFromSlice(b).value;
    SerializeLayout(r);
    U64BytesRoundTrip(b[97..105]);
    U64BytesRoundTrip(b[105..113]);
    U16BytesRoundTrip(b[116..118]);
    var s := Serialize(r);
    assert s[1..33] == b[1..33];
    assert s[33..65] == b[33..65];
    assert s[65..97] == b[65..97];
    assert s[97..105] == b[97..105];
    assert s[105..113] == b[105..113];
    assert s[116..118] == b[116..118];
    forall i | 0 <= i < RecordLen
      ensures s[i] == b[i]
    {
      if 1 <= i < 33 { assert s[i] == s[1..33][i - 1]; }
      else if 33 <= i < 65 { assert s[i] == s[33..65][i - 33]; }
      else if 65 <= i < 97 { assert s[i] == s[65..97][i - 65]; }
      else if 97 <= i < 105 { assert s[i] == s[97..105][i - 97]; }
      else if 105 <= i < 113 { assert s[i] == s[105..113][i - 105]; }
      else if 116 <= i < 118 { assert s[i] == s[116..118][i - 116]; }
    }
  }

  /** A freshly allocated, all-zero record buffer decodes to an uninitialized record. */
  lemma ZeroBufferIsUninitialized()
    ensures TryFromSlice(seq(RecordLen, _ => 0)).Some?
    ensures !IsInitialized(TryFromSlice(seq(RecordLen, _ => 0)).value)
  {
  }
}
