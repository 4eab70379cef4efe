/** Alignment agreement: no end carries traffic before the other has completed proving. */
module AlignmentAgreement {
  import opened SignalUnits
  import opened LinkControl
  import opened ProvingPeriod
  import opened TwoLinks

  /** Units that only a link that has completed proving sends. */
  predicate Telling(su: SignalUnit) {
    !su.Lssu? || su.status.ProcessorOutage?
  }

  predicate PastProving(s: LinkState) {
    Ready(s) || s.Serving()
  }

  ghost predicate Agreed(a: End, b: End, ab: seq<SignalUnit>) {
    && (PastProving(a.trace.link) ==> a.proved)
    && (a.trace.link.Serving() ==> b.proved)
    && (forall i :: 0 <= i < |ab| && Telling(ab[i]) ==> a.proved)
  }

  ghost predicate Agreement(p: Pair) {
    Agreed(p.a, p.b, p.ab) && Agreed(p.b, p.a, p.ba)
  }

  lemma SentAfterProving(s: LinkState)
    ensures Transmit(s).1.Some? && Telling(Transmit(s).1.value) ==> PastProving(s)
    ensures Transmit(s).0.state == s.state
  {
  }

  lemma AligningNeverServes(s: LinkState, status: Status)
    requires !s.Serving()
    ensures !NotAlignedLssu(s, status).Serving() && !AlignedLssu(s, status).Serving()
    ensures !ProvingLssu(s, status).Serving()
  {
  }

  lemma LssuServing(s: LinkState, status: Status)
    requires !s.Serving() && ReceiveLssu(s, status).Serving()
    ensures s.state.AlignedReady? && status.ProcessorOutage?
  {
    AligningNeverServes(Upgraded(s, status), status);
  }

  lemma ServingNeedsTelling(s: LinkState, su: SignalUnit)
    requires !s.Serving() && Receive(s, su).Serving()
    ensures s.state.AlignedReady? && Telling(su)
  {
    if su.Lssu? {
      LssuServing(s, su.status);
    }
  }

  lemma HearingNeverServes(s: LinkState)
    requires !s.Serving()
    ensures !TickHearing(s).0.Serving()
  {
  }

  lemma ProvingNeverServes(s: LinkState)
    requires !s.Serving()
    ensures !TickProving(s).0.Serving()
  {
    var s4 := s.(timers := s.timers.(t4 := StepTimer(s.timers.t4).0));
    assert !ProvingSucceeded(s4).Serving();
  }

  lemma ServiceTimersNeverServe(s: LinkState)
    requires !s.Serving()
    ensures !TickService(s).Serving()
  {
  }

  lemma TickNeverServes(s: LinkState)
    requires !s.Serving()
    ensures !Tick(s).Serving()
  {
    HearingNeverServes(s);
    ProvingNeverServes(TickHearing(s).0);
    ServiceTimersNeverServe(TickProving(TickHearing(s).0).0);
  }

  lemma CorruptedNeverServes(s: LinkState)
    requires !s.Serving()
    ensures !ReceiveCorrupted(s).Serving()
  {
  }

  /** No operation but a telling unit takes a link into service. */
  lemma ServingOnlyByUnits(s: LinkState, op: LinkOp)
    requires !s.Serving() && Step(s, op).Serving()
    ensures op.ReceiveOp? && s.state.AlignedReady? && Telling(op.su)
  {
    match op
    case ReceiveOp(su) => ServingNeedsTelling(s, su);
    case TickOp => TickNeverServes(s);
    case CorruptedOp => CorruptedNeverServes(s);
    case TransmitOp => SentAfterProving(s);
    case _ =>
  }

  lemma EndStepAgreed(a: End, b: End, ab: seq<SignalUnit>, op: LinkOp)
    requires Agreed(a, b, ab)
    requires op.ReceiveOp? && Telling(op.su) ==> b.proved
    ensures Agreed(EndStep(a, op), b, ab)
  {
    var s, s' := a.trace.link, EndStep(a, op).trace.link;
    if !s.Serving() && s'.Serving() {
      ServingOnlyByUnits(s, op);
    }
    if Ready(s') && !PastProving(s) && !s.state.Proving? {
      ReadyOnlyThroughProving(s, op);
    }
  }

  lemma StepAAgreed(p: Pair, act: Act)
    requires Agreement(p)
    ensures Agreement(StepA(p, act))
  {
    var s := p.a.trace.link;
    match act
    case Local(op) =>
      if !op.TransmitOp? && !op.ReceiveOp? {
        EndStepAgreed(p.a, p.b, p.ab, op);
      }
    case Send =>
      SentAfterProving(s);
      EndStepAgreed(p.a, p.b, p.ab, TransmitOp);
    case Deliver =>
      if p.ba != [] {
        EndStepAgreed(p.a, p.b, p.ab, ReceiveOp(p.ba[0]));
      }
    case Lose =>
    case Corrupt => EndStepAgreed(p.a, p.b, p.ab, CorruptedOp);
  }

  lemma {:induction false} AgreementInvariant(configA: LinkConfig, configB: LinkConfig, acts: seq<PairAct>)
    ensures Agreement(PairRun(configA, configB, acts))
  {
    if acts != [] {
      var before := PairRun(configA, configB, acts[..|acts| - 1]);
      AgreementInvariant(configA, configB, acts[..|acts| - 1]);
      match acts[|acts| - 1]
      case AtA(act) => StepAAgreed(before, act);
      case AtB(act) => StepAAgreed(Swap(before), act);
    }
  }

  /**
   * In every run of two fresh links over lossy channels, restarts included, an end in
   * service implies that both ends have completed proving at least once.
   */
  lemma ServiceImpliesBothProved(configA: LinkConfig, configB: LinkConfig, acts: seq<PairAct>)
    ensures var p := PairRun(configA, configB, acts);
            p.a.trace.link.Serving() || p.b.trace.link.Serving() ==> p.a.proved && p.b.proved
  {
    AgreementInvariant(configA, configB, acts);
  }
}
