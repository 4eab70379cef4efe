/**
 * From two fresh links to delivered MSUs: alignment leaves both sessions unused, and what is
 * queued then is reported at the other end, whole and in order.
 */
module EndToEnd {
  import opened Basics
  import opened Retransmission
  import opened TransmitBuffer
  import opened SignalUnits
  import opened LinkControl
  import opened LinkInvariants
  import opened Emission
  import opened TwoLinks
  import opened Alignment
  import opened LinkDelivery
  import opened Traffic

  // ---- From the start: alignment exchanges nothing ----

  /** An end whose session has not been used. */
  ghost predicate Unused(e: End) {
    var s := e.trace.link;
    && LinkOk(s) && Sound(s, WithinMaximum)
    && s.tx == NewTx(s.config.scheme) && s.rx == NewRx(s.config.scheme) && !s.localBusy
    && e.submitted == [] && Delivered(e) == []
  }

  /** A unit of alignment from an end whose session has not been used. */
  predicate Aligning(su: SignalUnit) {
    SevenBit(su.header) && su.header.bib && !su.MsuUnit? && (su.Lssu? ==> !su.status.ProcessorOutage?)
  }

  lemma UnusedSpeaks(e: End)
    requires Unused(e) && Ordinary(e.trace.link) && !e.trace.link.Serving()
    ensures Transmit(e.trace.link).0 == e.trace.link && Transmit(e.trace.link).1.Some?
    ensures Aligning(Transmit(e.trace.link).1.value)
    ensures Unused(EndStep(e, TransmitOp)) && EndStep(e, TransmitOp).trace.link == e.trace.link
  {
    Spoken(e.trace.link);
    EndSends(e);
  }

  lemma NotAlignedNotBusy(s: LinkState, status: Status)
    requires !s.localBusy && !s.Serving()
    ensures !NotAlignedLssu(s, status).localBusy && !NotAlignedLssu(s, status).Serving()
  {
  }

  lemma AlignedNotBusy(s: LinkState, status: Status)
    requires !s.localBusy && !s.Serving()
    ensures !AlignedLssu(s, status).localBusy && !AlignedLssu(s, status).Serving()
  {
  }

  lemma ProvingLssuNotBusy(s: LinkState, status: Status)
    requires !s.localBusy && !s.Serving()
    ensures !ProvingLssu(s, status).localBusy && !ProvingLssu(s, status).Serving()
  {
  }

  lemma ReadyNotBusy(s: LinkState, status: Status)
    requires !s.localBusy && !s.Serving() && !status.ProcessorOutage?
    ensures !ReadyLssu(s, status).localBusy && !ReadyLssu(s, status).Serving()
  {
  }

  lemma LssuNotBusy(s: LinkState, status: Status)
    requires !s.Serving() && !s.localBusy && !status.ProcessorOutage?
    ensures !ReceiveLssu(s, status).localBusy && !ReceiveLssu(s, status).Serving()
  {
    match s.state
    case OutOfService =>
    case NotAligned => NotAlignedNotBusy(Upgraded(s, status), status);
    case Aligned => AlignedNotBusy(Upgraded(s, status), status);
    case Proving => ProvingLssuNotBusy(Upgraded(s, status), status);
    case AlignedReady => ReadyNotBusy(s, status);
    case AlignedNotReady => ReadyNotBusy(s, status);
  }

  /** Receiving a unit of alignment never makes a link congested. */
  lemma AligningNotBusy(s: LinkState, su: SignalUnit)
    requires LinkOk(s) && !s.Serving() && !s.localBusy && Aligning(su)
    ensures !Receive(s, su).localBusy
    ensures Receive(s, su).Serving() ==> !Receive(s, su).remoteOutage && !Receive(s, su).remoteBusy
  {
    if s.state.AlignedReady? && su.Fisu? {
      var s1 := ApplyAck(EnterInService(s), su.header);
      assert ClearRemote(s1) == s1;
      assert Receive(s, su) == s1;
    } else if su.Lssu? {
      assert Receive(s, su) == ReceiveLssu(s, su.status);
      LssuNotBusy(s, su.status);
    } else {
      assert Receive(s, su) == s;
    }
  }

  lemma EmptySessionAck(scheme: Scheme, bsn: octet)
    ensures AckTx(NewTx(scheme), bsn, true) == NewTx(scheme)
  {
  }

  lemma UnusedHears(e: End, su: SignalUnit)
    requires Unused(e) && !e.trace.link.Serving() && Aligning(su)
    ensures var e' := EndStep(e, ReceiveOp(su)); Unused(e') && e'.trace.link == Receive(e.trace.link, su)
  {
    var s := e.trace.link;
    ReceiveKeeps(s, su);
    ReceiveKeepsSound(s, su, WithinMaximum);
    AligningNotBusy(s, su);
    ReceiveTrace(e.trace, su);
    EmptySessionAck(s.config.scheme, su.header.bsn);
    if Taken(s, su) {
      EndTakes(e, su);
    } else {
      InertLog(e.trace, ReceiveOp(su));
    }
  }

  /** Neither congested nor, in service, held up by the peer. */
  predicate Unheld(s: LinkState) {
    !s.localBusy && (s.Serving() ==> !s.remoteOutage && !s.remoteBusy)
  }

  lemma HearingNotBusy(s: LinkState)
    requires Unheld(s)
    ensures Unheld(TickHearing(s).0)
  {
  }

  lemma ProvingNotBusy(s: LinkState)
    requires Unheld(s)
    ensures Unheld(TickProving(s).0)
  {
    assert s.state.Proving? ==> Unheld(ProvingSucceeded(s));
  }

  lemma ServiceNotBusy(s: LinkState)
    requires Unheld(s)
    ensures Unheld(TickService(s))
  {
  }

  lemma TickNotBusy(s: LinkState)
    requires !s.localBusy && !(s.Serving() && (s.remoteOutage || s.remoteBusy))
    ensures !Tick(s).localBusy
    ensures Tick(s).Serving() ==> !Tick(s).remoteOutage && !Tick(s).remoteBusy
  {
    HearingNotBusy(s);
    ProvingNotBusy(TickHearing(s).0);
    ServiceNotBusy(TickProving(TickHearing(s).0).0);
  }

  lemma UnusedTicks(e: End)
    requires Unused(e) && !(e.trace.link.Serving() && (e.trace.link.remoteOutage || e.trace.link.remoteBusy))
    ensures var e' := EndStep(e, TickOp);
            && Unused(e') && e'.trace.link == Tick(e.trace.link)
            && (e'.trace.link.Serving() ==> !e'.trace.link.remoteOutage && !e'.trace.link.remoteBusy)
  {
    var s := e.trace.link;
    TickKeeps(s);
    StepKeepsSound(s, TickOp, WithinMaximum);
    EndTicks(e);
    TickNotBusy(s);
    assert SameControllers(s, Tick(s));
  }

  /** Both ends of the pair, ready to carry traffic if in service. */
  ghost predicate UnusedPair(p: Pair) {
    && LineEmpty(p) && Unused(p.a) && Unused(p.b)
    && Unheld(p.a.trace.link) && Unheld(p.b.trace.link)
  }

  lemma UnusedExchanges(e: End, su: SignalUnit)
    requires Unused(e) && !e.trace.link.Serving() && Aligning(su)
    ensures var e' := EndStep(EndStep(e, ReceiveOp(su)), TickOp); Unused(e') && Unheld(e'.trace.link)
  {
    UnusedHears(e, su);
    AligningNotBusy(e.trace.link, su);
    UnusedTicks(EndStep(e, ReceiveOp(su)));
  }

  lemma AligningCycle(p: Pair)
    requires UnusedPair(p)
    requires Ordinary(p.a.trace.link) && !p.a.trace.link.Serving()
    requires Ordinary(p.b.trace.link) && !p.b.trace.link.Serving()
    ensures UnusedPair(Cycled(p))
  {
    var ua, ub := Transmit(p.a.trace.link).1.value, Transmit(p.b.trace.link).1.value;
    var a1, b1 := EndStep(p.a, TransmitOp), EndStep(p.b, TransmitOp);
    UnusedSpeaks(p.a);
    UnusedSpeaks(p.b);
    SentEnds(p);
    HeardEnds(Sent(p));
    TickedEnds(Heard(Sent(p)));
    UnusedExchanges(a1, ub);
    UnusedExchanges(b1, ua);
  }

  lemma StartedIsUnused(config: LinkConfig)
    ensures var e := EndStep(NewEnd(config), StartOp);
            Unused(e) && Unheld(e.trace.link) && e.trace.link == Start(NewLink(config))
  {
    NewLinkOk(config);
    StartKeeps(NewLink(config));
    StartIsSound(NewLink(config), WithinMaximum);
  }

  lemma BegunUnused(configA: LinkConfig, configB: LinkConfig)
    ensures UnusedPair(AfterCycles(configA, configB, 0))
  {
    StartedIsUnused(configA);
    StartedIsUnused(configB);
    RunTwoMore(configA, configB, [], AtA(Local(StartOp)), AtB(Local(StartOp)));
    assert Schedule(0) == [] + [AtA(Local(StartOp)), AtB(Local(StartOp))];
  }

  lemma OrdinaryNotServing(s: LinkState)
    requires Ordinary(s) && !PhaseOf(s).Up?
    ensures !s.Serving()
  {
  }

  lemma NeitherUpBefore(configA: LinkConfig, configB: LinkConfig, n: nat)
    requires NeitherUp(Phases(configA, configB, n))
    ensures n > 0 ==> NeitherUp(Phases(configA, configB, n - 1))
  {
  }

  lemma OrdinaryCycle(configA: LinkConfig, configB: LinkConfig, n: nat)
    requires NeitherUp(Phases(configA, configB, n))
    ensures var p := AfterCycles(configA, configB, n);
            && Ordinary(p.a.trace.link) && !p.a.trace.link.Serving()
            && Ordinary(p.b.trace.link) && !p.b.trace.link.Serving()
  {
    NeitherUpBefore(configA, configB, n);
    PairFollowsPhases(configA, configB, n);
    OrdinaryNotServing(AfterCycles(configA, configB, n).a.trace.link);
    OrdinaryNotServing(AfterCycles(configA, configB, n).b.trace.link);
  }

  lemma UnusedOneMore(configA: LinkConfig, configB: LinkConfig, n: nat)
    requires n > 0 && NeitherUp(Phases(configA, configB, n - 1))
    requires UnusedPair(AfterCycles(configA, configB, n - 1))
    ensures UnusedPair(AfterCycles(configA, configB, n))
  {
    OrdinaryCycle(configA, configB, n - 1);
    CycleOfRun(configA, configB, Schedule(n - 1));
    AligningCycle(AfterCycles(configA, configB, n - 1));
  }

  lemma {:induction false} AlignmentLeavesUnused(configA: LinkConfig, configB: LinkConfig, n: nat)
    requires n > 0 ==> NeitherUp(Phases(configA, configB, n - 1))
    ensures UnusedPair(AfterCycles(configA, configB, n))
  {
    if n == 0 {
      BegunUnused(configA, configB);
    } else {
      NeitherUpBefore(configA, configB, n - 1);
      AlignmentLeavesUnused(configA, configB, n - 1);
      UnusedOneMore(configA, configB, n);
    }
  }

  // ---- Queueing, and the whole run ----

  /** T and T7 leave room for traffic, and thresholds and schemes let it through. */
  predicate CanCarry(configA: LinkConfig, configB: LinkConfig) {
    && configA.suermThreshold >= 1 && configB.suermThreshold >= 1
    && configA.t7ExcessiveDelay >= 2 && configB.t7ExcessiveDelay >= 2
    && match (configA.scheme, configB.scheme)
       case (Basic, Basic) => true
       case (Pcr(p), Pcr(q)) => p.n1 >= 1 && p.n2 >= 1 && q.n1 >= 1 && q.n2 >= 1
       case _ => false
  }

  lemma UnusedIsOpen(e: End)
    requires Unused(e) && Unheld(e.trace.link) && e.trace.link.state.InService?
    requires e.trace.link.config.suermThreshold >= 1 && e.trace.link.config.t7ExcessiveDelay >= 2
    ensures Open(e.trace.link)
  {
  }

  lemma UnusedFlows(scheme: Scheme, peer: Scheme)
    requires scheme.Pcr? ==> peer.Pcr? && scheme.params.n1 >= 1 && scheme.params.n2 >= 1
    ensures Flow(NewTx(scheme), NewRx(peer), [], []) && Load(NewTx(scheme)) == 0
  {
    NewConserved(scheme);
  }

  lemma UnusedCarries(p: Pair)
    requires UnusedPair(p) && BothInService(p)
    requires CanCarry(p.a.trace.link.config, p.b.trace.link.config)
    ensures Carrying(p) && p.a.submitted == p.b.submitted == []
    ensures Load(p.a.trace.link.tx) == Load(p.b.trace.link.tx) == 0
  {
    UnusedIsOpen(p.a);
    UnusedIsOpen(p.b);
    UnusedFlows(p.a.trace.link.config.scheme, p.b.trace.link.config.scheme);
    UnusedFlows(p.b.trace.link.config.scheme, p.a.trace.link.config.scheme);
  }

  function SubmitAct(m: Msu, atA: bool): PairAct {
    if atA then AtA(Local(LinkOp.SubmitOp(m))) else AtB(Local(LinkOp.SubmitOp(m)))
  }

  function QueuedAt(acts: seq<PairAct>, ms: seq<Msu>, atA: bool): seq<PairAct> {
    if ms == [] then acts
    else QueuedAt(acts, ms[..|ms| - 1], atA) + [SubmitAct(ms[|ms| - 1], atA)]
  }

  function Submitted(p: Pair, m: Msu, atA: bool): Pair {
    PairStep(p, SubmitAct(m, atA))
  }

  /** A carrying pair with more queued at one end. */
  ghost predicate QueuedMore(p: Pair, q: Pair, ms: seq<Msu>, atA: bool) {
    && Carrying(q)
    && q.a.submitted == p.a.submitted + (if atA then ms else [])
    && q.b.submitted == p.b.submitted + (if atA then [] else ms)
    && Load(q.a.trace.link.tx) == Load(p.a.trace.link.tx) + (if atA then 2 * |ms| else 0)
    && Load(q.b.trace.link.tx) == Load(p.b.trace.link.tx) + (if atA then 0 else 2 * |ms|)
  }

  lemma OpenSubmits(e: End, m: Msu)
    requires Open(e.trace.link) && m.Octets() <= MAX_MSU_BODY
    ensures var e' := EndStep(e, LinkOp.SubmitOp(m));
            Open(e'.trace.link) && EndSubmitted(e, e', m)
  {
    EndSubmits(e, m);
    SubmissionKeeps(e.trace.link, m);
    SubmissionIsSound(e.trace.link, m, WithinMaximum);
  }

  lemma FlowSubmits(tx: TxState, rx: RxState, submitted: seq<Msu>, delivered: seq<Msu>, m: Msu)
    requires Flow(tx, rx, submitted, delivered)
    ensures Flow(SubmitMsu(tx, m), rx, submitted + [m], delivered)
    ensures Load(SubmitMsu(tx, m)) == Load(tx) + 2
  {
    SubmitConserved(tx, submitted, Released(tx, submitted), m);
  }

  /** Queueing at end a of a carrying pair. */
  lemma QueueOneAtA(p: Pair, m: Msu)
    requires Carrying(p) && m.Octets() <= MAX_MSU_BODY
    ensures QueuedMore(p, StepA(p, Local(LinkOp.SubmitOp(m))), [m], true)
  {
    OpenSubmits(p.a, m);
    FlowSubmits(p.a.trace.link.tx, p.b.trace.link.rx, p.a.submitted, Delivered(p.b), m);
  }

  lemma QueueOne(p: Pair, m: Msu, atA: bool)
    requires Carrying(p) && m.Octets() <= MAX_MSU_BODY
    ensures QueuedMore(p, Submitted(p, m, atA), [m], atA)
  {
    if atA {
      QueueOneAtA(p, m);
    } else {
      QueueOneAtA(Swap(p), m);
    }
  }

  lemma QueuedStill(p: Pair, q: Pair, r: Pair, ms: seq<Msu>, m: Msu, atA: bool)
    requires QueuedMore(p, q, ms, atA) && QueuedMore(q, r, [m], atA)
    ensures QueuedMore(p, r, ms + [m], atA)
  {
  }

  lemma QueuedNothing(p: Pair, atA: bool)
    requires Carrying(p)
    ensures QueuedMore(p, p, [], atA)
  {
  }

  lemma NextSubmission(configA: LinkConfig, configB: LinkConfig, acts: seq<PairAct>, p: Pair, m: Msu, atA: bool)
    returns (q: Pair)
    requires PairRun(configA, configB, acts) == p
    ensures PairRun(configA, configB, acts + [SubmitAct(m, atA)]) == q == Submitted(p, m, atA)
  {
    q := Submitted(p, m, atA);
    RunOneMore(configA, configB, acts, SubmitAct(m, atA));
  }

  /** What every submission at an end keeps, given what was queued, holds when all are. */
  lemma {:induction false} QueueKeeps(configA: LinkConfig, configB: LinkConfig, acts: seq<PairAct>,
                                      ms: seq<Msu>, atA: bool, kept: (Pair, seq<Msu>) -> bool) returns (q: Pair)
    requires kept(PairRun(configA, configB, acts), [])
    requires forall q, some, m :: kept(q, some) && m in ms ==> kept(Submitted(q, m, atA), some + [m])
    ensures PairRun(configA, configB, QueuedAt(acts, ms, atA)) == q && kept(q, ms)
  {
    if ms == [] {
      q := PairRun(configA, configB, acts);
    } else {
      var front, m := ms[..|ms| - 1], ms[|ms| - 1];
      var before := QueueKeeps(configA, configB, acts, front, atA, kept);
      q := NextSubmission(configA, configB, QueuedAt(acts, front, atA), before, m, atA);
      assert front + [m] == ms;
    }
  }

  lemma QueueAll(configA: LinkConfig, configB: LinkConfig, acts: seq<PairAct>, p: Pair, ms: seq<Msu>, atA: bool)
    returns (q: Pair)
    requires PairRun(configA, configB, acts) == p && Carrying(p)
    requires forall m :: m in ms ==> m.Octets() <= MAX_MSU_BODY
    ensures PairRun(configA, configB, QueuedAt(acts, ms, atA)) == q && QueuedMore(p, q, ms, atA)
  {
    QueuedNothing(p, atA);
    forall q, some, m | QueuedMore(p, q, some, atA) && m in ms
      ensures QueuedMore(p, Submitted(q, m, atA), some + [m], atA)
    {
      QueueOne(q, m, atA);
      QueuedStill(p, q, Submitted(q, m, atA), some, m, atA);
    }
    q := QueueKeeps(configA, configB, acts, ms, atA, (q: Pair, some: seq<Msu>) => QueuedMore(p, q, some, atA));
  }

  lemma ConfigsStay(configA: LinkConfig, configB: LinkConfig, n: nat)
    requires n > 0 && NeitherUp(Phases(configA, configB, n - 1))
    ensures var p := AfterCycles(configA, configB, n);
            p.a.trace.link.config == configA && p.b.trace.link.config == configB
  {
    PairFollowsPhases(configA, configB, n);
  }

  lemma ServiceIsUnused(configA: LinkConfig, configB: LinkConfig)
    requires Completes(configA, configB)
    ensures var p := AfterCycles(configA, configB, CyclesToService(configA, configB));
            && UnusedPair(p) && BothInService(p)
            && p.a.trace.link.config == configA && p.b.trace.link.config == configB
  {
    var n := CyclesToService(configA, configB);
    AlignmentCompletes(configA, configB, n);
    ReachesService(configA, configB, n);
    ConfigsStay(configA, configB, n);
    AlignmentLeavesUnused(configA, configB, n);
  }

  lemma AlignedCarries(configA: LinkConfig, configB: LinkConfig) returns (p: Pair)
    requires Completes(configA, configB) && CanCarry(configA, configB)
    ensures PairRun(configA, configB, Schedule(CyclesToService(configA, configB))) == p && Carrying(p)
    ensures p.a.submitted == p.b.submitted == [] && Load(p.a.trace.link.tx) == Load(p.b.trace.link.tx) == 0
  {
    ServiceIsUnused(configA, configB);
    p := AfterCycles(configA, configB, CyclesToService(configA, configB));
    UnusedCarries(p);
  }

  /** Both links start, align, queue these MSUs and go on for k cycles. */
  function WholeRun(configA: LinkConfig, configB: LinkConfig, msA: seq<Msu>, msB: seq<Msu>, k: nat): seq<PairAct> {
    var aligned := Schedule(CyclesToService(configA, configB));
    WithCycles(QueuedAt(QueuedAt(aligned, msA, true), msB, false), k)
  }

  lemma AllUnloaded(r: Pair, s: Pair, k: nat)
    requires Lighter(r, s, k) && k >= Load(r.a.trace.link.tx) && k >= Load(r.b.trace.link.tx)
    ensures Load(s.a.trace.link.tx) == Load(s.b.trace.link.tx) == 0
  {
  }

  lemma CarriedUnloaded(p: Pair)
    requires Carrying(p) && Load(p.a.trace.link.tx) == Load(p.b.trace.link.tx) == 0
    ensures BothInService(p) && Delivered(p.b) == p.a.submitted && Delivered(p.a) == p.b.submitted
  {
    UnloadedIsDelivered(p.a.trace.link.tx, p.b.trace.link.rx, p.a.submitted, Delivered(p.b));
    UnloadedIsDelivered(p.b.trace.link.tx, p.a.trace.link.rx, p.b.submitted, Delivered(p.a));
  }

  lemma AllDelivered(p: Pair, q: Pair, r: Pair, s: Pair, msA: seq<Msu>, msB: seq<Msu>, k: nat)
    requires p.a.submitted == p.b.submitted == [] && Load(p.a.trace.link.tx) == Load(p.b.trace.link.tx) == 0
    requires QueuedMore(p, q, msA, true) && QueuedMore(q, r, msB, false) && CarriedOn(r, s, k)
    requires k >= 2 * |msA| && k >= 2 * |msB|
    ensures BothInService(s)
    ensures Delivered(s.b) == s.a.submitted == msA && Delivered(s.a) == s.b.submitted == msB
    ensures Load(s.a.trace.link.tx) == Load(s.b.trace.link.tx) == 0
  {
    AllUnloaded(r, s, k);
    CarriedUnloaded(s);
  }

  /**
   * Two fresh links that can align and carry traffic, started together over a line that loses
   * nothing: whatever is queued at either end once they are in service, the other end has
   * reported, whole and in order, after two cycles for every MSU; it has been released, and
   * both are still in service.
   */
  lemma QueuedMsusAreDelivered(configA: LinkConfig, configB: LinkConfig, msA: seq<Msu>, msB: seq<Msu>, k: nat)
    requires Completes(configA, configB) && CanCarry(configA, configB)
    requires forall m :: m in msA + msB ==> m.Octets() <= MAX_MSU_BODY
    requires k >= 2 * |msA| && k >= 2 * |msB|
    ensures var p := PairRun(configA, configB, WholeRun(configA, configB, msA, msB, k));
            && BothInService(p)
            && Delivered(p.b) == p.a.submitted == msA && Delivered(p.a) == p.b.submitted == msB
            && Load(p.a.trace.link.tx) == Load(p.b.trace.link.tx) == 0
  {
    var aligned := Schedule(CyclesToService(configA, configB));
    var p := AlignedCarries(configA, configB);
    var q := QueueAll(configA, configB, aligned, p, msA, true);
    var r := QueueAll(configA, configB, QueuedAt(aligned, msA, true), q, msB, false);
    var s := CarryingCycles(configA, configB, QueuedAt(QueuedAt(aligned, msA, true), msB, false), r, k);
    AllDelivered(p, q, r, s, msA, msB, k);
  }
}
