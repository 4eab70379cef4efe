/**
 * Signal-unit framing, sections 2.2 and 2.3 of ITU-T Q.703: the content between the opening
 * flag and the check bits. Masks are written as remainders: x & 0x7f is x % 128.
 */
module SignalUnits {
  import opened Basics

  const LI_FISU := 0
  const LI_LSSU_ONE := 1
  const LI_LSSU_TWO := 2
  const LI_MAX := 63

  datatype Status =
    | OutOfAlignment
    | NormalAlignment
    | EmergencyAlignment
    | OutOfService
    | ProcessorOutage
    | Busy

  function StatusCode(status: Status): octet {
    match status
    case OutOfAlignment => 0
    case NormalAlignment => 1
    case EmergencyAlignment => 2
    case OutOfService => 3
    case ProcessorOutage => 4
    case Busy => 5
  }

  function ParseStatus(value: octet): Result<Status> {
    match value % 8
    case 0 => Ok(OutOfAlignment)
    case 1 => Ok(NormalAlignment)
    case 2 => Ok(EmergencyAlignment)
    case 3 => Ok(OutOfService)
    case 4 => Ok(ProcessorOutage)
    case 5 => Ok(Busy)
    case other => Err(InvalidStatusIndication(other))
  }

  datatype SuHeader = SuHeader(bsn: octet, bib: bool, fsn: octet, fib: bool)

  predicate SevenBit(header: SuHeader) {
    header.bsn < 128 && header.fsn < 128
  }

  function MakeHeader(bsn: octet, bib: bool, fsn: octet, fib: bool): Result<SuHeader> {
    if bsn >= 128 then Err(SequenceNumberOutOfRange(bsn))
    else if fsn >= 128 then Err(SequenceNumberOutOfRange(fsn))
    else Ok(SuHeader(bsn, bib, fsn, fib))
  }

  function PackSeq(number: octet, indicator: bool): octet {
    number % 128 + (if indicator then 128 else 0)
  }

  function UnpackHeader(b0: octet, b1: octet): SuHeader {
    SuHeader(b0 % 128, b0 >= 128, b1 % 128, b1 >= 128)
  }

  datatype SignalUnit =
    | Fisu(header: SuHeader)
    | Lssu(header: SuHeader, status: Status, extended: bool)
    | MsuUnit(header: SuHeader, msu: Msu)

  function MakeLssu(header: SuHeader, status: Status): SignalUnit {
    Lssu(header, status, false)
  }

  function MakeMsu(header: SuHeader, msu: Msu): Result<SignalUnit> {
    if msu.Octets() > MAX_MSU_BODY then Err(MsuTooLarge(msu.Octets())) else Ok(MsuUnit(header, msu))
  }

  function LengthIndicator(su: SignalUnit): octet {
    match su
    case Fisu(_) => LI_FISU
    case Lssu(_, _, extended) => if extended then LI_LSSU_TWO else LI_LSSU_ONE
    case MsuUnit(_, msu) => if msu.Octets() >= LI_MAX then LI_MAX else msu.Octets()
  }

  function Body(su: SignalUnit): seq<octet> {
    match su
    case Fisu(_) => []
    case Lssu(_, status, extended) => [StatusCode(status)] + (if extended then [0] else [])
    case MsuUnit(_, msu) => [msu.sio] + msu.sif
  }

  function Encode(su: SignalUnit): Result<seq<octet>> {
    var h := su.header;
    match MakeHeader(h.bsn, h.bib, h.fsn, h.fib)
    case Err(e) => Err(e)
    case Ok(_) =>
      if su.MsuUnit? && su.msu.Octets() > MAX_MSU_BODY then Err(MsuTooLarge(su.msu.Octets()))
      else Ok([PackSeq(h.bsn, h.bib), PackSeq(h.fsn, h.fib), LengthIndicator(su)] + Body(su))
  }

  function Decode(bytes: seq<octet>): Result<SignalUnit> {
    if |bytes| < 3 then Err(TooShort(3, |bytes|))
    else
      var header := UnpackHeader(bytes[0], bytes[1]);
      var li := bytes[2] % 64;
      var body := bytes[3..];
      if li == LI_FISU then
        if body != [] then Err(LengthIndicatorMismatch(li, |body|)) else Ok(Fisu(header))
      else if li == LI_LSSU_ONE || li == LI_LSSU_TWO then
        if |body| != li then Err(LengthIndicatorMismatch(li, |body|))
        else
          match ParseStatus(body[0])
          case Err(e) => Err(e)
          case Ok(status) => Ok(Lssu(header, status, li == LI_LSSU_TWO))
      else if body == [] then Err(TooShort(4, |bytes|))
      else if li < LI_MAX && |body| != li then Err(LengthIndicatorMismatch(li, |body|))
      else if li == LI_MAX && |body| < LI_MAX then Err(LengthIndicatorMismatch(li, |body|))
      else if |body| > MAX_MSU_BODY then Err(MsuTooLarge(|body|))
      else Ok(MsuUnit(header, Msu(body[0], body[1..])))
  }

  /** The encoder as the program runs it: octets pushed onto a growing buffer. */
  method EncodeUnit(su: SignalUnit) returns (r: Result<seq<octet>>)
    ensures r == Encode(su)
  {
    var h := su.header;
    var checked := MakeHeader(h.bsn, h.bib, h.fsn, h.fib);
    if checked.Err? {
      return Err(checked.error);
    }
    var out: seq<octet> := [];
    out := out + [PackSeq(h.bsn, h.bib)];
    out := out + [PackSeq(h.fsn, h.fib)];
    out := out + [LengthIndicator(su) % 64];
    ghost var head := [PackSeq(h.bsn, h.bib), PackSeq(h.fsn, h.fib), LengthIndicator(su)];
    assert out == head;
    match su {
      case Fisu(_) =>
      case Lssu(_, status, extended) =>
        out := out + [StatusCode(status) % 8];
        if extended {
          out := out + [0];
        }
        assert out == head + Body(su);
      case MsuUnit(_, msu) =>
        if msu.Octets() > MAX_MSU_BODY {
          return Err(MsuTooLarge(msu.Octets()));
        }
        out := out + [msu.sio];
        out := out + msu.sif;
        assert out == head + Body(su);
    }
    assert out == head + Body(su);
    r := Ok(out);
  }

  // ---- Encode and decode as inverses ----

  predicate Encodable(su: SignalUnit) {
    SevenBit(su.header) && (su.MsuUnit? ==> su.msu.Octets() <= MAX_MSU_BODY)
  }

  /** An MSU this short takes the length indicator of an LSSU. */
  predicate TooShortForMsu(su: SignalUnit) {
    su.MsuUnit? && |su.msu.sif| < 2
  }

  lemma EncodableIff(su: SignalUnit)
    ensures Encode(su).Ok? <==> Encodable(su)
  {
  }

  /** Decoding an encoded unit gives it back iff it is not an MSU of fewer than two SIF octets. */
  lemma DecodeOfEncode(su: SignalUnit)
    requires Encodable(su)
    ensures Decode(Encode(su).value) == Ok(su) <==> !TooShortForMsu(su)
  {
    var bytes := Encode(su).value;
    assert bytes[3..] == Body(su);
    assert UnpackHeader(bytes[0], bytes[1]) == su.header;
    if su.MsuUnit? {
      assert Body(su)[1..] == su.msu.sif;
    }
  }

  /** The octets with spare length and status bits, and the second status octet, zeroed. */
  function Canonical(bytes: seq<octet>): (c: seq<octet>)
    requires |bytes| >= 3
    ensures |c| == |bytes|
  {
    seq(|bytes|, i requires 0 <= i < |bytes| =>
      if i == 2 then bytes[2] % 64
      else if bytes[2] % 64 in {1, 2} && i == 3 then bytes[3] % 8
      else if bytes[2] % 64 in {1, 2} && i > 3 then 0
      else bytes[i])
  }

  lemma DecodedHeader(bytes: seq<octet>)
    requires Decode(bytes).Ok?
    ensures var h := Decode(bytes).value.header;
            SevenBit(h) && PackSeq(h.bsn, h.bib) == bytes[0] && PackSeq(h.fsn, h.fib) == bytes[1]
  {
  }

  lemma DecodedBody(bytes: seq<octet>)
    requires Decode(bytes).Ok?
    ensures var su := Decode(bytes).value;
            && !TooShortForMsu(su) && (su.MsuUnit? ==> su.msu.Octets() <= MAX_MSU_BODY)
            && LengthIndicator(su) == bytes[2] % 64
            && Body(su) == Canonical(bytes)[3..]
  {
    var su, rest := Decode(bytes).value, Canonical(bytes)[3..];
    if su.Lssu? {
      assert StatusCode(su.status) == bytes[3] % 8;
      assert |rest| == bytes[2] % 64 && rest[0] == bytes[3] % 8 && (|rest| == 2 ==> rest[1] == 0);
    } else {
      assert rest == bytes[3..];
    }
  }

  /** Every accepted octet string re-encodes to itself with the spare bits zeroed. */
  lemma EncodeOfDecode(bytes: seq<octet>)
    requires Decode(bytes).Ok?
    ensures var su := Decode(bytes).value;
            && Encode(su) == Ok(Canonical(bytes))
            && Decode(Canonical(bytes)) == Ok(su)
            && !TooShortForMsu(su)
  {
    var su := Decode(bytes).value;
    DecodedHeader(bytes);
    DecodedBody(bytes);
    assert [bytes[0], bytes[1], bytes[2] % 64] + Body(su) == Canonical(bytes);
    DecodeOfEncode(su);
  }

  /** Two accepted strings are the same unit iff they differ in spare bits only. */
  lemma SameUnitIffSameCanonical(x: seq<octet>, y: seq<octet>)
    requires Decode(x).Ok? && Decode(y).Ok?
    ensures Decode(x) == Decode(y) <==> Canonical(x) == Canonical(y)
  {
    EncodeOfDecode(x);
    EncodeOfDecode(y);
  }

  /** The strings that encode a faithful unit are exactly the accepted canonical ones. */
  lemma EncodingsAreCanonical(bytes: seq<octet>)
    ensures (exists su :: Encode(su) == Ok(bytes) && !TooShortForMsu(su))
       <==> |bytes| >= 3 && Decode(bytes).Ok? && Canonical(bytes) == bytes
  {
    if |bytes| >= 3 && Decode(bytes).Ok? && Canonical(bytes) == bytes {
      EncodeOfDecode(bytes);
      assert Encode(Decode(bytes).value) == Ok(bytes);
    }
    if su :| Encode(su) == Ok(bytes) && !TooShortForMsu(su) {
      DecodeOfEncode(su);
      EncodeOfDecode(bytes);
    }
  }

  // ---- The octets themselves ----

  predicate SequenceOctet(value: octet, number: octet, indicator: bool) {
    value == number + 128 * (if indicator then 1 else 0)
  }

  /** A status octet of 0 to 5, as section 11 of ITU-T Q.703 numbers them. */
  predicate StatusOctet(value: octet, status: Status) {
    && value <= 5
    && (value == 0 <==> status.OutOfAlignment?) && (value == 1 <==> status.NormalAlignment?)
    && (value == 2 <==> status.EmergencyAlignment?) && (value == 3 <==> status.OutOfService?)
    && (value == 4 <==> status.ProcessorOutage?) && (value == 5 <==> status.Busy?)
  }

  /** What an encodable unit looks like on the line, octet by octet. */
  lemma OctetsOf(su: SignalUnit)
    requires Encodable(su)
    ensures Encode(su).Ok?
    ensures var b, h := Encode(su).value, su.header;
            && |b| >= 3 && SequenceOctet(b[0], h.bsn, h.bib) && SequenceOctet(b[1], h.fsn, h.fib)
            && (su.Fisu? ==> b[2] == 0 && |b| == 3)
            && (su.Lssu? ==> b[2] == |b| - 3 == (if su.extended then 2 else 1) && StatusOctet(b[3], su.status)
                             && (su.extended ==> b[4] == 0))
            && (su.MsuUnit? ==> b[2] == (if |su.msu.sif| <= 61 then 1 + |su.msu.sif| else 63)
                                && b[3..] == [su.msu.sio] + su.msu.sif)
  {
    assert Encode(su).value[3..] == Body(su);
  }

  /**
   * Exactly which octet strings are accepted: at least three octets; by the low six bits of
   * the third, no more for 0, a status of 0 to 5 in as many more as it says for 1 and 2, as
   * many more as it says up to 62, and 63 to 273 more for 63.
   */
  lemma AcceptedIff(bytes: seq<octet>)
    ensures Decode(bytes).Ok?
       <==> && |bytes| >= 3
            && var li, more := bytes[2] % 64, |bytes| - 3;
               if li == 63 then 63 <= more <= 273
               else more == li && (li in {1, 2} ==> bytes[3] % 8 <= 5)
  {
  }
}
