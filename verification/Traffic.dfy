/**
 * Traffic between two links in service on a line that loses nothing: each end's queue empties
 * cycle by cycle, unless its direction is stuck, and then the links stay in service all the
 * same.
 */
module Traffic {
  import opened Basics
  import opened Sequence
  import opened Retransmission
  import opened TransmitBuffer
  import opened Session
  import opened Handshake
  import opened BasicProgress
  import opened Monitor
  import opened SignalUnits
  import opened LinkControl
  import opened Deliveries
  import opened LinkInvariants
  import opened Emission
  import opened TwoLinks
  import opened Alignment
  import opened LinkDelivery

  // ---- One link over one cycle ----

  /** In service with nothing in the way of traffic, and timers and monitor provisioned. */
  ghost predicate Open(s: LinkState) {
    && s.state.InService? && LinkOk(s) && Sound(s, WithinMaximum)
    && !s.localBusy && !s.remoteOutage && !s.remoteBusy
    && s.config.suermThreshold >= 1 && s.config.t7ExcessiveDelay >= 2
    && (s.timers.t7.Some? ==> s.timers.t7.value >= 1)
  }

  function Exchange(s: LinkState, heard: SignalUnit): LinkState {
    Tick(Receive(Transmit(s).0, heard))
  }

  /** The unit that carries a polled frame. */
  predicate Frames(su: SignalUnit, frame: TxFrame, rx: RxState) {
    && SevenBit(su.header) && su.header.bsn == rx.lastReceived && su.header.bib == rx.bib
    && (match frame.body
        case Fill => su.Fisu?
        case Message(m) => su.MsuUnit? && su.msu == m && su.header.fsn == frame.fsn)
  }

  lemma OpenSends(s: LinkState)
    requires Open(s)
    ensures var (s', out) := Transmit(s);
            && out.Some? && Frames(out.value, PollTx(s.tx).1, s.rx)
            && s' == s.(tx := PollTx(s.tx).0, timers := s.timers.(t7 := s'.timers.t7))
            && LinkOk(s') && Sound(s', WithinMaximum)
  {
    TransmitKeeps(s);
    TransmitIsSound(s, WithinMaximum);
    PollIsSound(s.tx, WithinMaximum);
  }

  lemma CheckStays(s: LinkState, fsn: octet, m: Msu)
    ensures var s' := CheckMsu(s, fsn, m);
            s' == s.(rx := s'.rx, events := s'.events)
  {
  }

  /** A unit with traffic is processed, and T7 starts afresh if anything is outstanding. */
  lemma OpenHears(s: LinkState, su: SignalUnit)
    requires LinkOk(s) && s.state.InService? && s.config.suermThreshold >= 1
    requires !s.remoteOutage && !s.remoteBusy && !su.Lssu?
    ensures var s' := Receive(s, su);
            && s'.state.InService? && ControllersMove(s, s', su, true)
            && s'.localBusy == s.localBusy && !s'.remoteOutage && !s'.remoteBusy
            && (s'.timers.t7 == None || s'.timers.t7 == Some(s.config.t7ExcessiveDelay))
  {
    var s1 := s.(suerm := RecordSu(s.suerm, false));
    var acked := ApplyAck(s1, su.header);
    assert !s1.suerm.failed;
    assert Receive(s, su) == ProcessInService(s1, su);
    assert ClearRemote(acked) == acked;
    if su.MsuUnit? {
      CheckStays(acked, su.header.fsn, su.msu);
    }
  }

  lemma OpenTicks(s: LinkState)
    requires LinkOk(s) && s.state.InService? && !s.remoteBusy
    requires s.timers.t7.Some? ==> s.timers.t7.value >= 2
    ensures Tick(s) == s.(timers := s.timers.(t7 := if s.timers.t7.Some? then Some(s.timers.t7.value - 1) else None))
  {
    assert TickHearing(s) == (s, false) && TickProving(s) == (s, false);
  }

  /** What a cycle leaves of the transmit side, and of the receive side that hears a frame. */
  function TxAfter(tx: TxState, rx: RxState): TxState {
    AckTx(PollTx(tx).0, rx.lastReceived, rx.bib)
  }

  function RxAfter(rx: RxState, frame: TxFrame): RxState {
    match frame.body
    case Fill => rx
    case Message(m) => ReceiveMsu(rx, frame.fsn, m).0
  }

  function Reported(rx: RxState, frame: TxFrame): seq<Msu> {
    match frame.body
    case Fill => []
    case Message(m) => Deliverable(rx, frame.fsn, m)
  }

  lemma OpenAfterTick(s: LinkState)
    requires LinkOk(s) && Sound(s, WithinMaximum) && s.state.InService?
    requires !s.localBusy && !s.remoteOutage && !s.remoteBusy
    requires s.config.suermThreshold >= 1 && s.config.t7ExcessiveDelay >= 2
    requires s.timers.t7 == None || s.timers.t7 == Some(s.config.t7ExcessiveDelay)
    ensures Open(Tick(s)) && SameControllers(s, Tick(s))
  {
    OpenTicks(s);
    TickKeeps(s);
  }

  lemma OpenExchanges(s: LinkState, su: SignalUnit, frame: TxFrame, peer: RxState)
    requires Open(s) && Frames(su, frame, peer)
    ensures var s' := Exchange(s, su);
            && Open(s') && s'.config == s.config
            && s'.tx == TxAfter(s.tx, peer) && s'.rx == RxAfter(s.rx, frame)
  {
    var s1 := Transmit(s).0;
    OpenSends(s);
    OpenHears(s1, su);
    ReceiveKeeps(s1, su);
    ReceiveKeepsSound(s1, su, WithinMaximum);
    OpenAfterTick(Receive(s1, su));
  }

  // ---- The pair over one cycle ----

  lemma SentEnds(p: Pair)
    requires LineEmpty(p) && Transmit(p.a.trace.link).1.Some? && Transmit(p.b.trace.link).1.Some?
    ensures Sent(p) == Pair(EndStep(p.a, TransmitOp), EndStep(p.b, TransmitOp),
                            [Transmit(p.a.trace.link).1.value], [Transmit(p.b.trace.link).1.value])
  {
  }

  lemma HeardEnds(p: Pair)
    requires |p.ab| == 1 && |p.ba| == 1
    ensures Heard(p) == Pair(EndStep(p.a, ReceiveOp(p.ba[0])), EndStep(p.b, ReceiveOp(p.ab[0])), [], [])
  {
  }

  lemma TickedEnds(p: Pair)
    requires LineEmpty(p)
    ensures Ticked(p) == Pair(EndStep(p.a, TickOp), EndStep(p.b, TickOp), [], [])
  {
  }

  function EndExchange(e: End, su: SignalUnit): End {
    EndStep(EndStep(EndStep(e, TransmitOp), ReceiveOp(su)), TickOp)
  }

  /** An end that takes a unit, with every MSU checked. */
  lemma EndHears(e: End, su: SignalUnit)
    requires Taken(e.trace.link, su) && !e.trace.link.state.ProcessorOutage?
    ensures var e' := EndStep(e, ReceiveOp(su));
            && e'.trace.link == Receive(e.trace.link, su) && e'.submitted == e.submitted
            && Delivered(e') == Delivered(e)
                 + (if su.MsuUnit? then Deliverable(e.trace.link.rx, su.header.fsn, su.msu) else [])
  {
    ReceiveTrace(e.trace, su);
    EndTakes(e, su);
  }

  lemma EndTicks(e: End)
    ensures var e' := EndStep(e, TickOp);
            e'.trace.link == Tick(e.trace.link) && e'.submitted == e.submitted && Delivered(e') == Delivered(e)
  {
    InertLog(e.trace, TickOp);
  }

  lemma EndExchanges(e: End, su: SignalUnit, frame: TxFrame, peer: RxState)
    requires Open(e.trace.link) && Frames(su, frame, peer)
    ensures var e' := EndExchange(e, su);
            && e'.trace.link == Exchange(e.trace.link, su)
            && e'.submitted == e.submitted
            && Delivered(e') == Delivered(e) + Reported(e.trace.link.rx, frame)
  {
    var sent := EndStep(e, TransmitOp);
    OpenSends(e.trace.link);
    EndSends(e);
    EndHears(sent, su);
    EndTicks(EndStep(sent, ReceiveOp(su)));
  }

  /** What a cycle does to an end that hears `frame` from a peer whose receive side is `peer`. */
  ghost predicate EndAfter(e: End, e': End, frame: TxFrame, peer: RxState) {
    var s, s' := e.trace.link, e'.trace.link;
    && Open(s') && s'.config == s.config
    && s'.tx == TxAfter(s.tx, peer) && s'.rx == RxAfter(s.rx, frame)
    && e'.submitted == e.submitted && Delivered(e') == Delivered(e) + Reported(s.rx, frame)
  }

  lemma EndOpens(e: End, su: SignalUnit, frame: TxFrame, peer: RxState)
    requires Open(e.trace.link) && Frames(su, frame, peer)
    ensures EndAfter(e, EndExchange(e, su), frame, peer)
  {
    OpenExchanges(e.trace.link, su, frame, peer);
    EndExchanges(e, su, frame, peer);
  }

  lemma PairExchanges(p: Pair)
    requires LineEmpty(p) && Open(p.a.trace.link) && Open(p.b.trace.link)
    ensures var a, b, q := p.a.trace.link, p.b.trace.link, Cycled(p);
            && LineEmpty(q) && EndAfter(p.a, q.a, PollTx(b.tx).1, b.rx) && EndAfter(p.b, q.b, PollTx(a.tx).1, a.rx)
  {
    var a, b := p.a.trace.link, p.b.trace.link;
    OpenSends(a);
    OpenSends(b);
    SentEnds(p);
    HeardEnds(Sent(p));
    TickedEnds(Heard(Sent(p)));
    EndOpens(p.a, Transmit(b).1.value, PollTx(b.tx).1, b.rx);
    EndOpens(p.b, Transmit(a).1.value, PollTx(a.tx).1, a.rx);
  }

  // ---- One direction that has lost nothing ----

  /** All that was sent has been delivered, and only the last cycle's MSU is unacknowledged. */
  ghost predicate Flow(tx: TxState, rx: RxState, submitted: seq<Msu>, delivered: seq<Msu>) {
    var freed := Released(tx, submitted);
    && 0 <= freed && Conserved(tx, submitted, freed)
    && |tx.unacked| <= 1 && |delivered| == freed + |tx.unacked| && delivered == submitted[..|delivered|]
    && rx.lastReceived == FsnBefore(|delivered|) && rx.bib && !rx.nackPending
    && tx.fib && tx.basicCursor == None
    && (tx.scheme.Pcr? ==> rx.scheme.Pcr? && tx.scheme.params.n1 >= 1 && tx.scheme.params.n2 >= 1)
  }

  /** Cycles that suffice to deliver and release everything. */
  function Load(tx: TxState): nat {
    2 * |tx.pending| + |tx.unacked|
  }

  /** What a cycle makes of a direction whose transmit side becomes tx'. */
  ghost predicate FlowResult(tx: TxState, rx: RxState, submitted: seq<Msu>, delivered: seq<Msu>,
                             tx': TxState, frame: TxFrame) {
    && Flow(tx', RxAfter(rx, frame), submitted, delivered + Reported(rx, frame))
    && (Load(tx') < Load(tx) || Load(tx') == 0)
  }

  /** Of a transmit side tx that had released `freed`, what an acknowledgement of d leaves. */
  ghost predicate AckedTo(tx: TxState, tx': TxState, submitted: seq<Msu>, freed: nat, d: nat) {
    && Conserved(tx', submitted, d) && |tx'.unacked| == freed + |tx.unacked| - d
    && tx'.scheme == tx.scheme && tx'.fib == tx.fib && tx'.basicCursor == None
    && tx'.pending == tx.pending
  }

  /** The acknowledgement on its way when the unit was sent releases what was delivered then. */
  lemma FlowAck(tx: TxState, rx: RxState, submitted: seq<Msu>, freed: nat, d: nat)
    requires Conserved(tx, submitted, freed) && freed <= d <= freed + |tx.unacked| && d <= freed + 1
    requires rx.lastReceived == FsnBefore(d) && rx.bib == tx.fib && tx.basicCursor == None
    ensures AckedTo(tx, AckTx(tx, rx.lastReceived, rx.bib), submitted, freed, d)
  {
    AckIsExact(freed, d, |tx.unacked|);
    AckConserved(tx, submitted, freed, rx.lastReceived, rx.bib);
    AckTrims(tx, rx.lastReceived, rx.bib);
  }

  predicate SendsNew(tx: TxState) {
    tx.pending != [] && !(tx.scheme.Pcr? && Forced(tx, tx.scheme.params))
  }

  lemma FlowPoll(tx: TxState)
    requires tx.basicCursor == None && |tx.unacked| <= 1
    requires tx.scheme.Pcr? ==> tx.scheme.params.n1 >= 1 && tx.scheme.params.n2 >= 1
    ensures PollTx(tx).1.body.Message? ==> SentPosition(tx) == (if SendsNew(tx) then |tx.unacked| else 0)
    ensures var (tx1, frame) := PollTx(tx);
            && tx1.basicCursor == None
            && (if SendsNew(tx)
                then frame.body.Message? && |tx1.unacked| == |tx.unacked| + 1 && |tx1.pending| == |tx.pending| - 1
                else && tx1.unacked == tx.unacked && tx1.pending == tx.pending
                     && (tx.pending == [] || tx.unacked != [])
                     && (frame.body.Message? ==> tx.scheme.Pcr? && tx.unacked != []))
  {
  }

  /** A new MSU is accepted; the one before it is released. */
  lemma FlowOfNew(tx: TxState, rx: RxState, submitted: seq<Msu>, delivered: seq<Msu>,
                  tx1: TxState, tx': TxState, frame: TxFrame)
    requires Flow(tx, rx, submitted, delivered) && tx.pending != []
    requires tx1.scheme == tx.scheme && tx1.fib
    requires |tx1.unacked| == |tx.unacked| + 1 && |tx1.pending| == |tx.pending| - 1
    requires AckedTo(tx1, tx', submitted, Released(tx, submitted), |delivered|)
    requires frame == TxFrame(Fsn(|delivered|), true, Message(submitted[|delivered|]))
    ensures FlowResult(tx, rx, submitted, delivered, tx', frame)
  {
    NumberRepeats(|delivered|);
  }

  lemma OldIsIgnored(rx: RxState, frame: TxFrame, d: nat)
    requires rx.lastReceived == FsnBefore(d)
    requires frame.body.Message? ==> rx.scheme.Pcr? && 0 < d && frame.fsn == Fsn(d - 1)
    ensures RxAfter(rx, frame) == rx && Reported(rx, frame) == []
  {
    if frame.body.Message? {
      ForwardOfIndices(d - 1, d);
    }
  }

  /** A repetition or a fill-in unit changes nothing at the receiver; the MSU before is released. */
  lemma FlowOfOld(tx: TxState, rx: RxState, submitted: seq<Msu>, delivered: seq<Msu>,
                  tx1: TxState, tx': TxState, frame: TxFrame)
    requires Flow(tx, rx, submitted, delivered)
    requires tx1.scheme == tx.scheme && tx1.fib && tx1.unacked == tx.unacked && tx1.pending == tx.pending
    requires AckedTo(tx1, tx', submitted, Released(tx, submitted), |delivered|)
    requires tx.pending == [] || tx.unacked != []
    requires frame.body.Message? ==> rx.scheme.Pcr? && 0 < |delivered| && frame.fsn == Fsn(|delivered| - 1)
    ensures FlowResult(tx, rx, submitted, delivered, tx', frame)
  {
    OldIsIgnored(rx, frame, |delivered|);
    assert delivered + [] == delivered;
  }

  lemma FlowStep(tx: TxState, rx: RxState, submitted: seq<Msu>, delivered: seq<Msu>)
    requires Flow(tx, rx, submitted, delivered)
    ensures FlowResult(tx, rx, submitted, delivered, TxAfter(tx, rx), PollTx(tx).1)
  {
    var (tx1, frame) := PollTx(tx);
    PollConserved(tx, submitted, Released(tx, submitted));
    FlowPoll(tx);
    FlowAck(tx1, rx, submitted, Released(tx, submitted), |delivered|);
    if SendsNew(tx) {
      FlowOfNew(tx, rx, submitted, delivered, tx1, TxAfter(tx, rx), frame);
    } else {
      FlowOfOld(tx, rx, submitted, delivered, tx1, TxAfter(tx, rx), frame);
    }
  }

  // ---- Both directions over many cycles ----

  /** Two open links and two directions that have lost nothing. */
  ghost predicate Carrying(p: Pair) {
    && LineEmpty(p) && Open(p.a.trace.link) && Open(p.b.trace.link)
    && Flow(p.a.trace.link.tx, p.b.trace.link.rx, p.a.submitted, Delivered(p.b))
    && Flow(p.b.trace.link.tx, p.a.trace.link.rx, p.b.submitted, Delivered(p.a))
  }

  /** No end's load grows, and each that is not zero has gone down by n or to zero. */
  predicate Lighter(p: Pair, q: Pair, n: nat) {
    && (Load(q.a.trace.link.tx) + n <= Load(p.a.trace.link.tx) || Load(q.a.trace.link.tx) == 0)
    && (Load(q.b.trace.link.tx) + n <= Load(p.b.trace.link.tx) || Load(q.b.trace.link.tx) == 0)
  }

  lemma CarryingCycle(p: Pair)
    requires Carrying(p)
    ensures var q := Cycled(p);
            && Carrying(q) && Lighter(p, q, 1)
            && q.a.submitted == p.a.submitted && q.b.submitted == p.b.submitted
  {
    PairExchanges(p);
    FlowStep(p.a.trace.link.tx, p.b.trace.link.rx, p.a.submitted, Delivered(p.b));
    FlowStep(p.b.trace.link.tx, p.a.trace.link.rx, p.b.submitted, Delivered(p.a));
  }

  /** k cycles after a run. */
  function WithCycles(acts: seq<PairAct>, k: nat): seq<PairAct> {
    if k == 0 then acts else WithCycle(WithCycles(acts, k - 1))
  }

  /** Carrying on from p for k cycles leads to q. */
  ghost predicate CarriedOn(p: Pair, q: Pair, k: nat) {
    && Carrying(q) && Lighter(p, q, k)
    && q.a.submitted == p.a.submitted && q.b.submitted == p.b.submitted
  }

  lemma LighterStill(p: Pair, q: Pair, r: Pair, k: nat)
    requires k > 0 && Lighter(p, q, k - 1) && Lighter(q, r, 1)
    ensures Lighter(p, r, k)
  {
  }

  lemma CarriedFurther(p: Pair, q: Pair, k: nat)
    requires k > 0 && CarriedOn(p, q, k - 1)
    ensures CarriedOn(p, Cycled(q), k)
  {
    CarryingCycle(q);
    LighterStill(p, q, Cycled(q), k);
  }

  lemma CarriedNowhere(p: Pair)
    requires Carrying(p)
    ensures CarriedOn(p, p, 0)
  {
  }

  lemma NextCycle(configA: LinkConfig, configB: LinkConfig, acts: seq<PairAct>, q: Pair) returns (r: Pair)
    requires PairRun(configA, configB, acts) == q
    ensures PairRun(configA, configB, WithCycle(acts)) == r == Cycled(q)
  {
    r := Cycled(q);
    CycleOfRun(configA, configB, acts);
  }

  /** What every cycle keeps, counting the cycles, holds after k of them. */
  lemma {:induction false} CyclesKeep(configA: LinkConfig, configB: LinkConfig, acts: seq<PairAct>,
                                      k: nat, kept: (Pair, nat) -> bool) returns (q: Pair)
    requires kept(PairRun(configA, configB, acts), 0)
    requires forall q, j: nat :: kept(q, j) ==> kept(Cycled(q), j + 1)
    ensures PairRun(configA, configB, WithCycles(acts, k)) == q && kept(q, k)
  {
    if k == 0 {
      q := PairRun(configA, configB, acts);
    } else {
      var before := CyclesKeep(configA, configB, acts, k - 1, kept);
      q := NextCycle(configA, configB, WithCycles(acts, k - 1), before);
    }
  }

  /** After as many cycles as the load of an end its queues are empty. */
  lemma CarryingCycles(configA: LinkConfig, configB: LinkConfig, acts: seq<PairAct>, p: Pair, k: nat)
    returns (q: Pair)
    requires PairRun(configA, configB, acts) == p && Carrying(p)
    ensures PairRun(configA, configB, WithCycles(acts, k)) == q && CarriedOn(p, q, k)
  {
    CarriedNowhere(p);
    forall q, j: nat | CarriedOn(p, q, j) ensures CarriedOn(p, Cycled(q), j + 1) {
      CarriedFurther(p, q, j + 1);
    }
    q := CyclesKeep(configA, configB, acts, k, (q: Pair, j: nat) => CarriedOn(p, q, j));
  }

  lemma UnloadedIsDelivered(tx: TxState, rx: RxState, submitted: seq<Msu>, delivered: seq<Msu>)
    requires Flow(tx, rx, submitted, delivered) && Load(tx) == 0
    ensures delivered == submitted && tx.unacked == [] && tx.pending == []
  {
  }

  // ---- A direction that is stuck ----

  /** What a Session system would be between these two ends with nothing in flight. */
  function Direction(tx: TxState, rx: RxState, submitted: seq<Msu>, delivered: seq<Msu>): System
    requires 0 <= Released(tx, submitted)
  {
    System(tx, rx, [], [], submitted, delivered, Released(tx, submitted), 0, 0)
  }

  /** The transmitter is past what the receiver lacks, and nothing will show it. */
  ghost predicate Stranded(tx: TxState, rx: RxState, submitted: seq<Msu>, delivered: seq<Msu>) {
    && 0 <= Released(tx, submitted) && |submitted| <= |delivered| + 128
    && Passing(Direction(tx, rx, submitted, delivered))
  }

  lemma AnsweredDirection(s: System, arrived: System, answered: System)
    requires arrived.rx == s.rx && Tracked(answered)
    requires answered == Apply(Apply(arrived, ReturnAck), DeliverAck)
    requires arrived == s.(tx := PollTx(s.tx).0) && s.backward == [] && s.forward == []
    requires s.tx.fib == s.rx.bib && s.tx.scheme.Basic? && PollTx(s.tx).0.fib == s.tx.fib && s.toggles == s.seen == 0
    ensures 0 <= Released(TxAfter(s.tx, s.rx), s.submitted)
    ensures answered == Direction(TxAfter(s.tx, s.rx), s.rx, s.submitted, s.delivered)
  {
    ReleasedIs(answered.tx, answered.submitted, answered.freed);
  }

  /** A cycle is a round of the system, acknowledged with what the receiver already was. */
  lemma StrandedStep(tx: TxState, rx: RxState, submitted: seq<Msu>, delivered: seq<Msu>)
    requires Stranded(tx, rx, submitted, delivered)
    ensures Stranded(TxAfter(tx, rx), rx, submitted, delivered)
    ensures RxAfter(rx, PollTx(tx).1) == rx && Reported(rx, PollTx(tx).1) == []
  {
    var s := Direction(tx, rx, submitted, delivered);
    var arrived := Apply(Apply(s, Poll), DeliverUnit);
    var answered := Apply(Apply(arrived, ReturnAck), DeliverAck);
    PollsNext(s);
    PassingArrival(s, Apply(s, Poll));
    assert Apply(s, Poll).forward[0].frame == PollTx(tx).1;
    AstrayAck(arrived);
    TrackedAck(arrived);
    AnsweredDirection(s, arrived, answered);
  }

  /** Two open links, one direction stuck and the other with nothing lost. */
  ghost predicate HalfStranded(p: Pair) {
    && LineEmpty(p) && Open(p.a.trace.link) && Open(p.b.trace.link)
    && Stranded(p.a.trace.link.tx, p.b.trace.link.rx, p.a.submitted, Delivered(p.b))
    && Flow(p.b.trace.link.tx, p.a.trace.link.rx, p.b.submitted, Delivered(p.a))
  }

  ghost predicate StillStranded(p: Pair, q: Pair) {
    HalfStranded(q) && q.a.submitted == p.a.submitted && Delivered(q.b) == Delivered(p.b)
  }

  lemma StrandedAfter(p: Pair, q: Pair, r: Pair)
    requires StillStranded(p, q) && LineEmpty(r)
    requires EndAfter(q.a, r.a, PollTx(q.b.trace.link.tx).1, q.b.trace.link.rx)
    requires EndAfter(q.b, r.b, PollTx(q.a.trace.link.tx).1, q.a.trace.link.rx)
    ensures StillStranded(p, r)
  {
    StrandedStep(q.a.trace.link.tx, q.b.trace.link.rx, q.a.submitted, Delivered(q.b));
    FlowStep(q.b.trace.link.tx, q.a.trace.link.rx, q.b.submitted, Delivered(q.a));
  }

  lemma StrandedCycle(p: Pair, q: Pair)
    requires StillStranded(p, q)
    ensures StillStranded(p, Cycled(q))
  {
    PairExchanges(q);
    StrandedAfter(p, q, Cycled(q));
  }

  lemma StrandedIsUp(p: Pair, q: Pair)
    requires StillStranded(p, q)
    ensures BothInService(q) && Delivered(q.b) == Delivered(p.b) && |Delivered(q.b)| < |q.a.submitted|
  {
  }

  /**
   * A pair of which one direction is stuck stays in service for ever on a line that loses
   * nothing, delivering nothing more in that direction: every unit heard restarts T7.
   */
  lemma StrandedPairStaysInService(configA: LinkConfig, configB: LinkConfig, acts: seq<PairAct>, p: Pair, k: nat)
    returns (q: Pair)
    requires PairRun(configA, configB, acts) == p && HalfStranded(p)
    ensures PairRun(configA, configB, WithCycles(acts, k)) == q && BothInService(q)
    ensures Delivered(q.b) == Delivered(p.b) && |Delivered(q.b)| < |q.a.submitted|
  {
    forall q | StillStranded(p, q) ensures StillStranded(p, Cycled(q)) {
      StrandedCycle(p, q);
    }
    q := CyclesKeep(configA, configB, acts, k, (q: Pair, j: nat) => StillStranded(p, q));
    StrandedIsUp(p, q);
  }
}
