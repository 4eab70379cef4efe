/** Everything a link puts on the line can be encoded, and what survives decoding. */
module Emission {
  import opened Basics
  import opened Retransmission
  import opened TransmitBuffer
  import opened SignalUnits
  import opened LinkControl
  import opened LinkInvariants

  /** Sequence numbers fit seven bits and every queued MSU is one that `fits` admits. */
  ghost predicate TxSound(tx: TxState, fits: Msu -> bool) {
    && tx.lastFsn < 128
    && (forall i :: 0 <= i < |tx.pending| ==> fits(tx.pending[i]))
    && (forall i :: 0 <= i < |tx.unacked| ==> tx.unacked[i].fsn < 128 && fits(tx.unacked[i].msu))
  }

  ghost predicate Sound(s: LinkState, fits: Msu -> bool) {
    TxSound(s.tx, fits) && s.rx.lastReceived < 128
  }

  /** What the run is fed: headers with 7-bit numbers, and submissions that `fits` admits. */
  ghost predicate Fed(ops: seq<LinkOp>, fits: Msu -> bool) {
    && (forall i :: 0 <= i < |ops| && ops[i].ReceiveOp? ==> SevenBit(ops[i].su.header))
    && (forall i :: 0 <= i < |ops| && ops[i].SubmitOp? && ops[i].msu.Octets() <= MAX_MSU_BODY ==>
          fits(ops[i].msu))
  }

  lemma TrimmedIsSound(tx: TxState, tx': TxState, fits: Msu -> bool)
    requires TxSound(tx, fits) && Trimmed(tx, tx')
    ensures TxSound(tx', fits)
  {
    forall i | 0 <= i < |tx'.unacked| ensures tx'.unacked[i].fsn < 128 && fits(tx'.unacked[i].msu) {
      assert tx'.unacked[i] == tx.unacked[|tx.unacked| - |tx'.unacked| + i];
    }
  }

  lemma AckKeepsSound(tx: TxState, bsn: octet, bib: bool, fits: Msu -> bool)
    requires TxSound(tx, fits)
    ensures TxSound(AckTx(tx, bsn, bib), fits)
  {
    AckTrims(tx, bsn, bib);
    TrimmedIsSound(tx, AckTx(tx, bsn, bib), fits);
  }

  lemma PollIsSound(tx: TxState, fits: Msu -> bool)
    requires TxSound(tx, fits)
    ensures var (tx', frame) := PollTx(tx);
            && TxSound(tx', fits)
            && frame.fsn < 128
            && (frame.body.Message? ==> fits(frame.body.msu))
  {
  }

  lemma MovedIsSound(s: LinkState, s': LinkState, su: SignalUnit, checked: bool, fits: Msu -> bool)
    requires Sound(s, fits) && SevenBit(su.header) && ControllersMove(s, s', su, checked)
    requires TxSound(AckTx(s.tx, su.header.bsn, su.header.bib), fits)
    ensures Sound(s', fits)
  {
  }

  lemma ReceiveKeepsSound(s: LinkState, su: SignalUnit, fits: Msu -> bool)
    requires Sound(s, fits) && SevenBit(su.header)
    ensures Sound(Receive(s, su), fits)
  {
    AckKeepsSound(s.tx, su.header.bsn, su.header.bib, fits);
    if Taken(s, su) {
      MovedIsSound(s, Receive(s, su), su, !s.state.ProcessorOutage?, fits);
    }
  }

  lemma SubmissionIsSound(s: LinkState, m: Msu, fits: Msu -> bool)
    requires Sound(s, fits) && (m.Octets() <= MAX_MSU_BODY ==> fits(m))
    ensures Sound(Submission(s, m).0, fits)
  {
  }

  lemma TransmitIsSound(s: LinkState, fits: Msu -> bool)
    requires Sound(s, fits)
    ensures Sound(Transmit(s).0, fits)
  {
    PollIsSound(s.tx, fits);
  }

  lemma StartIsSound(s: LinkState, fits: Msu -> bool)
    requires Sound(s, fits)
    ensures Sound(Start(s), fits)
  {
    assert Start(s) == s || (Start(s).tx == NewTx(s.config.scheme) && Start(s).rx == NewRx(s.config.scheme));
  }

  lemma StepKeepsSound(s: LinkState, op: LinkOp, fits: Msu -> bool)
    requires Sound(s, fits)
    requires op.ReceiveOp? ==> SevenBit(op.su.header)
    requires op.SubmitOp? && op.msu.Octets() <= MAX_MSU_BODY ==> fits(op.msu)
    ensures Sound(Step(s, op), fits)
  {
    match op
    case TransmitOp => TransmitIsSound(s, fits);
    case ReceiveOp(su) => ReceiveKeepsSound(s, su, fits);
    case StartOp => StartIsSound(s, fits);
    case SubmitOp(m) => SubmissionIsSound(s, m, fits);
    case _ => ControllersStay(s, op);
  }

  lemma {:induction false} SoundRun(config: LinkConfig, ops: seq<LinkOp>, fits: Msu -> bool)
    requires Fed(ops, fits)
    ensures Sound(LinkRun(config, ops).link, fits)
  {
    if ops != [] {
      var last := ops[|ops| - 1];
      SoundRun(config, ops[..|ops| - 1], fits);
      StepKeepsSound(LinkRun(config, ops[..|ops| - 1]).link, last, fits);
    }
  }

  predicate WithinMaximum(m: Msu) {
    m.Octets() <= MAX_MSU_BODY
  }

  predicate Transportable(m: Msu) {
    m.Octets() <= MAX_MSU_BODY && |m.sif| >= 2
  }

  lemma EmissionOf(s: LinkState, fits: Msu -> bool)
    requires Sound(s, fits) && forall m :: fits(m) ==> m.Octets() <= MAX_MSU_BODY
    ensures var out := Transmit(s).1;
            && (out.Some? ==> Encode(out.value).Ok?)
            && (Polls(s) ==> (out.Some? && out.value.MsuUnit? <==> PollTx(s.tx).1.body.Message?))
            && (out.Some? && out.value.MsuUnit? ==> fits(out.value.msu))
  {
    PollIsSound(s.tx, fits);
    var out := Transmit(s).1;
    if out.Some? {
      EncodableIff(out.value);
    }
  }

  /**
   * In every run fed 7-bit headers, what a link emits can be encoded, and an MSU polled in
   * service goes out as an MSU: the fall-back to a fill-in unit is never taken.
   */
  lemma EmissionsAreValid(config: LinkConfig, ops: seq<LinkOp>)
    requires Fed(ops, WithinMaximum)
    ensures var s := LinkRun(config, ops).link;
            var out := Transmit(s).1;
            && (out.Some? ==> Encode(out.value).Ok?)
            && (Polls(s) ==> (out.Some? && out.value.MsuUnit? <==> PollTx(s.tx).1.body.Message?))
  {
    SoundRun(config, ops, WithinMaximum);
    var s := LinkRun(config, ops).link;
    PollIsSound(s.tx, WithinMaximum);
    EmissionOf(s, WithinMaximum);
  }

  /**
   * When every MSU submitted has at least two SIF octets, as section 2.3 of ITU-T Q.703
   * demands, every unit emitted is the one the peer decodes.
   */
  lemma EmissionsSurviveTheLine(config: LinkConfig, ops: seq<LinkOp>)
    requires Fed(ops, Transportable)
    ensures var out := Transmit(LinkRun(config, ops).link).1;
            out.Some? ==> Encode(out.value).Ok? && Decode(Encode(out.value).value) == Ok(out.value)
  {
    SoundRun(config, ops, Transportable);
    EmissionOf(LinkRun(config, ops).link, Transportable);
    var out := Transmit(LinkRun(config, ops).link).1;
    if out.Some? {
      EncodableIff(out.value);
      DecodeOfEncode(out.value);
    }
  }
}
