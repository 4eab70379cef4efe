/**
 * The pair of links over lines that carry octets: what is sent is encoded, and what arrives
 * is decoded before a link hears it.
 */
module LinkWire {
  import opened Basics
  import opened Monitor
  import opened Session
  import opened SignalUnits
  import opened LinkControl
  import opened LinkInvariants
  import opened Emission
  import opened TwoLinks
  import opened LinkDelivery

  /** As a Pair, with octet strings in flight. */
  datatype Wired = Wired(a: End, b: End, ab: seq<seq<octet>>, ba: seq<seq<octet>>)

  function NewWired(configA: LinkConfig, configB: LinkConfig): Wired {
    Wired(NewEnd(configA), NewEnd(configB), [], [])
  }

  /** What a unit puts on the line: nothing if there is none or it does not encode. */
  function OnTheLine(out: Option<SignalUnit>): seq<seq<octet>> {
    if out.Some? && Encode(out.value).Ok? then [Encode(out.value).value] else []
  }

  /** Octets that do not decode are dropped. */
  function Hear(e: End, bytes: seq<octet>): End {
    match Decode(bytes)
    case Ok(su) => EndStep(e, ReceiveOp(su))
    case Err(_) => e
  }

  function WiredStepA(w: Wired, act: Act): Wired {
    match act
    case Local(op) =>
      if op.TransmitOp? || op.ReceiveOp? then w else w.(a := EndStep(w.a, op))
    case Send =>
      w.(a := EndStep(w.a, TransmitOp), ab := w.ab + OnTheLine(Transmit(w.a.trace.link).1))
    case Deliver =>
      if w.ba == [] then w else w.(a := Hear(w.a, w.ba[0]), ba := w.ba[1..])
    case Lose => if w.ba == [] then w else w.(ba := w.ba[1..])
    case Corrupt => if w.ba == [] then w else w.(a := EndStep(w.a, CorruptedOp), ba := w.ba[1..])
  }

  function SwapWired(w: Wired): Wired {
    Wired(w.b, w.a, w.ba, w.ab)
  }

  function WiredStep(w: Wired, x: PairAct): Wired {
    match x
    case AtA(act) => WiredStepA(w, act)
    case AtB(act) => SwapWired(WiredStepA(SwapWired(w), act))
  }

  function WiredRun(configA: LinkConfig, configB: LinkConfig, acts: seq<PairAct>): Wired {
    if acts == [] then NewWired(configA, configB)
    else WiredStep(WiredRun(configA, configB, acts[..|acts| - 1]), acts[|acts| - 1])
  }

  // ---- Octets as the units they are read as ----

  /** The unit read from octets; those that do not decode still show a header. */
  function Read(bytes: seq<octet>): SignalUnit {
    match Decode(bytes)
    case Ok(su) => su
    case Err(_) => Fisu(if |bytes| >= 2 then UnpackHeader(bytes[0], bytes[1]) else SuHeader(0, false, 0, false))
  }

  function ReadLine(line: seq<seq<octet>>): seq<SignalUnit> {
    seq(|line|, i requires 0 <= i < |line| => Read(line[i]))
  }

  function Reading(w: Wired): Pair {
    Pair(w.a, w.b, ReadLine(w.ab), ReadLine(w.ba))
  }

  /** An encoded unit is read with its header, and as its MSU or as no MSU. */
  lemma SentIsRead(su: SignalUnit)
    requires Encodable(su)
    ensures Encode(su).Ok? && StandsFor(Read(Encode(su).value), su)
  {
    var bytes := Encode(su).value;
    assert UnpackHeader(bytes[0], bytes[1]) == su.header;
    if !TooShortForMsu(su) {
      DecodeOfEncode(su);
    }
  }

  lemma DecodedIsSevenBit(bytes: seq<octet>)
    requires Decode(bytes).Ok?
    ensures SevenBit(Decode(bytes).value.header)
  {
  }

  // ---- Both ends stay sound and in order ----

  /** What a link can encode and what its invariants say. */
  ghost predicate Fit(e: End, config: LinkConfig) {
    Sound(e.trace.link, WithinMaximum) && LinkOk(e.trace.link) && e.trace.link.config == config
  }

  lemma StaysFit(e: End, op: LinkOp, config: LinkConfig)
    requires Fit(e, config) && (op.ReceiveOp? ==> SevenBit(op.su.header))
    ensures Fit(EndStep(e, op), config)
  {
    StepKeepsSound(e.trace.link, op, WithinMaximum);
    StepKeeps(e.trace.link, op);
  }

  lemma StepAStaysFit(w: Wired, act: Act, config: LinkConfig)
    requires Fit(w.a, config)
    ensures Fit(WiredStepA(w, act).a, config) && WiredStepA(w, act).b == w.b
  {
    match act
    case Local(op) => StaysFit(w.a, if op.ReceiveOp? then TickOp else op, config);
    case Send => StaysFit(w.a, TransmitOp, config);
    case Deliver =>
      if w.ba != [] && Decode(w.ba[0]).Ok? {
        DecodedIsSevenBit(w.ba[0]);
        StaysFit(w.a, ReceiveOp(Decode(w.ba[0]).value), config);
      }
    case Lose =>
    case Corrupt => StaysFit(w.a, CorruptedOp, config);
  }

  lemma {:induction false} EndsStayFit(configA: LinkConfig, configB: LinkConfig, acts: seq<PairAct>)
    ensures var w := WiredRun(configA, configB, acts); Fit(w.a, configA) && Fit(w.b, configB)
  {
    if acts == [] {
      NewLinkOk(configA);
      NewLinkOk(configB);
    } else {
      var w := WiredRun(configA, configB, acts[..|acts| - 1]);
      EndsStayFit(configA, configB, acts[..|acts| - 1]);
      match acts[|acts| - 1]
      case AtA(act) => StepAStaysFit(w, act, configA);
      case AtB(act) => StepAStaysFit(SwapWired(w), act, configB);
    }
  }

  // ---- Delivery over octets ----

  lemma ReadAppend(line: seq<seq<octet>>, bytes: seq<octet>)
    ensures ReadLine(line + [bytes]) == ReadLine(line) + [Read(bytes)]
  {
  }

  lemma ReadRest(line: seq<seq<octet>>)
    requires line != []
    ensures ReadLine(line) != [] && ReadLine(line)[0] == Read(line[0])
    ensures ReadLine(line[1..]) == ReadLine(line)[1..]
  {
  }

  lemma WiredSendCoupled(w: Wired, f: System, g: System) returns (f': System, g': System)
    requires Coupled(Reading(w), f, g) && Sound(w.a.trace.link, WithinMaximum)
    requires AdmittedEnd(WiredStepA(w, Send).a)
    ensures Coupled(Reading(WiredStepA(w, Send)), f', g')
  {
    f', g' := f, g;
    var sent := Transmit(w.a.trace.link).1;
    if sent.Some? {
      EmissionOf(w.a.trace.link, WithinMaximum);
      EncodableIff(sent.value);
      SentIsRead(sent.value);
      var bytes := Encode(sent.value).value;
      f', g' := SentCoupled(Reading(w), f, g, Read(bytes));
      ReadAppend(w.ab, bytes);
    } else {
      assert WiredStepA(w, Send) == w;
    }
  }

  /** Octets that do not decode are, to the pair, a unit that is lost. */
  lemma WiredArrival(w: Wired)
    requires w.ba != []
    ensures var act := if Decode(w.ba[0]).Ok? then Deliver else Lose;
            Reading(WiredStepA(w, Deliver)) == StepA(Reading(w), act)
    ensures Reading(WiredStepA(w, Lose)) == StepA(Reading(w), Lose)
    ensures Reading(WiredStepA(w, Corrupt)) == StepA(Reading(w), Corrupt)
  {
    ReadRest(w.ba);
  }

  lemma WiredStepACoupled(w: Wired, act: Act, f: System, g: System) returns (f': System, g': System)
    requires Coupled(Reading(w), f, g) && Sound(w.a.trace.link, WithinMaximum)
    requires Admitted(Reading(WiredStepA(w, act)))
    ensures Coupled(Reading(WiredStepA(w, act)), f', g')
  {
    f', g' := f, g;
    match act
    case Local(op) =>
      assert Reading(WiredStepA(w, act)) == StepA(Reading(w), act);
      f', g' := StepACoupled(Reading(w), act, f, g);
    case Send => f', g' := WiredSendCoupled(w, f, g);
    case Deliver =>
      if w.ba != [] {
        WiredArrival(w);
        f', g' := StepACoupled(Reading(w), if Decode(w.ba[0]).Ok? then Deliver else Lose, f, g);
      }
    case Lose =>
      if w.ba != [] {
        WiredArrival(w);
        f', g' := StepACoupled(Reading(w), Lose, f, g);
      }
    case Corrupt =>
      if w.ba != [] {
        WiredArrival(w);
        f', g' := StepACoupled(Reading(w), Corrupt, f, g);
      }
  }

  /** The hypothesis on a run: every state on the way is admitted. */
  ghost predicate AlwaysAdmittedWired(configA: LinkConfig, configB: LinkConfig, acts: seq<PairAct>) {
    && AdmittedEnd(WiredRun(configA, configB, acts).a) && AdmittedEnd(WiredRun(configA, configB, acts).b)
    && (acts != [] ==> AlwaysAdmittedWired(configA, configB, acts[..|acts| - 1]))
  }

  lemma NewWiredCoupled(configA: LinkConfig, configB: LinkConfig) returns (f: System, g: System)
    ensures Coupled(Reading(NewWired(configA, configB)), f, g)
  {
    f, g := NewCoupled(configA, configB);
    assert Reading(NewWired(configA, configB)) == NewPair(configA, configB);
  }

  lemma WiredStepCoupled(w: Wired, x: PairAct, f: System, g: System) returns (f': System, g': System)
    requires Coupled(Reading(w), f, g)
    requires Sound(w.a.trace.link, WithinMaximum) && Sound(w.b.trace.link, WithinMaximum)
    requires AdmittedEnd(WiredStep(w, x).a) && AdmittedEnd(WiredStep(w, x).b)
    ensures Coupled(Reading(WiredStep(w, x)), f', g')
  {
    match x
    case AtA(act) => f', g' := WiredStepACoupled(w, act, f, g);
    case AtB(act) => g', f' := WiredStepACoupled(SwapWired(w), act, g, f);
  }

  lemma {:induction false} WiredRunCoupled(configA: LinkConfig, configB: LinkConfig, acts: seq<PairAct>)
    returns (f: System, g: System)
    requires AlwaysAdmittedWired(configA, configB, acts)
    ensures Coupled(Reading(WiredRun(configA, configB, acts)), f, g)
  {
    if acts == [] {
      f, g := NewWiredCoupled(configA, configB);
    } else {
      f, g := WiredRunCoupled(configA, configB, acts[..|acts| - 1]);
      EndsStayFit(configA, configB, acts[..|acts| - 1]);
      f, g := WiredStepCoupled(WiredRun(configA, configB, acts[..|acts| - 1]), acts[|acts| - 1], f, g);
    }
  }

  /**
   * Over octets, too, the MSUs one end reports are a prefix of those queued at the other,
   * including MSUs so short that the line turns them into status units.
   */
  lemma WiredLinksDeliverExactlyOnce(configA: LinkConfig, configB: LinkConfig, acts: seq<PairAct>)
    requires AlwaysAdmittedWired(configA, configB, acts)
    ensures var w := WiredRun(configA, configB, acts);
            Delivered(w.b) <= w.a.submitted && Delivered(w.a) <= w.b.submitted
  {
    var f, g := WiredRunCoupled(configA, configB, acts);
  }

  // ---- What becomes of a short MSU ----

  /** An MSU of fewer than two SIF octets decodes as the status unit its SIO spells, if any. */
  lemma ShortMsuIsAStatus(header: SuHeader, m: Msu)
    requires SevenBit(header) && |m.sif| < 2
    ensures var su := MsuUnit(header, m);
            Encode(su).Ok?
            && Decode(Encode(su).value)
            == match ParseStatus(m.sio)
               case Ok(status) => Ok(Lssu(header, status, |m.sif| == 1))
               case Err(e) => Err(e)
  {
    var bytes := Encode(MsuUnit(header, m)).value;
    assert bytes[3..] == [m.sio] + m.sif;
    assert UnpackHeader(bytes[0], bytes[1]) == header;
  }

  /** A status ends service iff it tells of alignment or of being out of service. */
  lemma StatusEndsServiceIff(s: LinkState, status: Status)
    requires s.Serving()
    ensures !ServingLssu(s, status).Serving() <==> StatusCode(status) <= 3
  {
    match status
    case ProcessorOutage => assert ServingLssu(s, status).state == s.state;
    case Busy => assert Congested(s).state == s.state;
    case _ => assert ServingLssu(s, status).state.OutOfService?;
  }

  lemma UnitEndsServiceIff(s: LinkState, su: SignalUnit)
    requires LinkOk(s) && s.Serving() && s.config.suermThreshold >= 1
    ensures !Receive(s, su).Serving() <==> su.Lssu? && StatusCode(su.status) <= 3
  {
    var s1 := s.(suerm := RecordSu(s.suerm, false));
    assert !s1.suerm.failed;
    if su.Lssu? {
      StatusEndsServiceIff(s1, su.status);
      assert Receive(s, su) == ServingLssu(s1, su.status);
    } else {
      assert SamePhase(s1, ReceiveFisuOrMsu(s1, su));
      assert Receive(s, su) == ReceiveFisuOrMsu(s1, su);
    }
  }

  lemma MsuEndsServiceIff(e: End, header: SuHeader, m: Msu)
    requires LinkOk(e.trace.link) && e.trace.link.Serving() && e.trace.link.config.suermThreshold >= 1
    requires SevenBit(header) && m.Octets() <= MAX_MSU_BODY
    ensures !Hear(e, Encode(MsuUnit(header, m)).value).trace.link.Serving() <==> |m.sif| < 2 && m.sio % 8 <= 3
  {
    var su := MsuUnit(header, m);
    if |m.sif| < 2 {
      ShortMsuIsAStatus(header, m);
      if ParseStatus(m.sio).Ok? {
        UnitEndsServiceIff(e.trace.link, Lssu(header, ParseStatus(m.sio).value, |m.sif| == 1));
      }
    } else {
      DecodeOfEncode(su);
      UnitEndsServiceIff(e.trace.link, su);
    }
  }

  /**
   * In every wired run, an MSU that reaches an end in service takes it out of service iff it
   * has fewer than two SIF octets and the low three bits of its SIO are 0 to 3.
   */
  lemma WiredMsuEndsServiceIff(configA: LinkConfig, configB: LinkConfig, acts: seq<PairAct>,
                               e: End, header: SuHeader, m: Msu)
    requires e == WiredRun(configA, configB, acts).a || e == WiredRun(configA, configB, acts).b
    requires configA.suermThreshold >= 1 && configB.suermThreshold >= 1 && e.trace.link.Serving()
    requires SevenBit(header) && m.Octets() <= MAX_MSU_BODY
    ensures !Hear(e, Encode(MsuUnit(header, m)).value).trace.link.Serving() <==> |m.sif| < 2 && m.sio % 8 <= 3
  {
    EndsStayFit(configA, configB, acts);
    MsuEndsServiceIff(e, header, m);
  }
}
