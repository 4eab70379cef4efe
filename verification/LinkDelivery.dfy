/**
 * Exactly-once delivery from link to link: through alignment, outages, congestion, failures
 * and loss, what one end reports to MTP3 is a prefix of what was queued at the other. Each
 * direction of the pair is followed by a Session system that makes the same moves.
 */
module LinkDelivery {
  import opened Basics
  import opened Retransmission
  import opened TransmitBuffer
  import opened Session
  import opened Handshake
  import opened ExactlyOnce
  import opened SignalUnits
  import opened LinkControl
  import opened Deliveries
  import opened LinkInvariants
  import opened ProvingPeriod
  import opened TwoLinks

  function Delivered(e: End): seq<Msu> {
    Msus(e.trace.Log())
  }

  /** An MSU in flight is the frame's; the frame of any other unit is not read. */
  predicate CarriesUnit(su: SignalUnit, u: Unit) {
    su.MsuUnit? ==> u.frame == TxFrame(su.header.fsn, su.header.fib, Message(su.msu))
  }

  predicate CarriesAck(su: SignalUnit, a: Ack) {
    su.header.bsn == a.bsn && su.header.bib == a.bib
  }

  /** A link that has not been started is silent and has exchanged nothing. */
  predicate Unstarted(e: End) {
    && e.trace.link.state.OutOfService? && !e.trace.link.active
    && e.trace.link.rx == NewRx(e.trace.link.config.scheme)
  }

  /** Neither end of the direction has asked for anything. */
  predicate Untoggled(f: System) {
    f.rx.bib && !f.rx.nackPending && f.toggles == 0 && f.seen == 0
  }

  /** The direction from `a` to `b`, as system `f` follows it. */
  ghost predicate Followed(a: End, b: End, ab: seq<SignalUnit>, ba: seq<SignalUnit>, f: System) {
    && f.tx == a.trace.link.tx && f.rx == b.trace.link.rx
    && f.tx.scheme == a.trace.link.config.scheme
    && f.submitted == a.submitted && f.delivered == Delivered(b)
    && Books(f) && InWindow(f)
    && (forall i :: 0 <= i < |f.submitted| ==> f.submitted[i].Octets() <= MAX_MSU_BODY)
    && |ab| == |f.forward| && |ba| == |f.backward|
    && (forall i :: 0 <= i < |ab| ==> CarriesUnit(ab[i], f.forward[i]))
    && (forall i :: 0 <= i < |ba| ==> CarriesAck(ba[i], f.backward[i]))
    && (a.starts == 0 ==>
          Unstarted(a) && f.forward == [] && f.tx.unacked == [] && f.freed == 0 && Untoggled(f))
    && (b.starts == 0 ==> Unstarted(b) && f.delivered == [])
  }

  ghost predicate Coupled(p: Pair, f: System, g: System) {
    Followed(p.a, p.b, p.ab, p.ba, f) && Followed(p.b, p.a, p.ba, p.ab, g)
  }

  /** Each end is started at most once and has no more outstanding than its scheme's window. */
  predicate AdmittedEnd(e: End) {
    e.starts <= 1 && |e.trace.link.tx.unacked| <= WindowOf(e.trace.link.config.scheme)
  }

  ghost predicate Admitted(p: Pair) {
    AdmittedEnd(p.a) && AdmittedEnd(p.b)
  }

  // ---- What the link does to what the systems see ----

  /** Operations that neither touch the controllers nor deliver anything. */
  predicate Inert(s: LinkState, op: LinkOp) {
    match op
    case StartOp => !s.state.OutOfService?
    case SubmitOp(m) => m.Octets() > MAX_MSU_BODY
    case TransmitOp => false
    case ReceiveOp(su) => !Taken(s, su)
    case _ => true
  }

  lemma Regroup(x: seq<Msu>, y: seq<Msu>, z: seq<Msu>)
    ensures x + (y + z) == (x + y) + z
  {
  }

  /** What the queue gains the log gains. */
  lemma LogGrows(drained: seq<Event>, events: seq<Event>, events': seq<Event>, more: seq<Msu>)
    requires Msus(events') == Msus(events) + more
    ensures Msus(drained + events') == Msus(drained + events) + more
  {
    MsusConcat(drained, events);
    MsusConcat(drained, events');
    Regroup(Msus(drained), Msus(events), more);
  }

  /** Taking an event from the queue changes nothing but where it is kept. */
  lemma PollLog(t: Trace)
    ensures var t' := TraceStep(t, PollEventOp);
            t'.Log() == t.Log() && SameControllers(t.link, t'.link)
  {
    if t.link.events != [] {
      assert t.drained + [t.link.events[0]] + t.link.events[1..] == t.drained + t.link.events;
    }
  }

  lemma InertStep(s: LinkState, op: LinkOp)
    requires Inert(s, op) && !op.PollEventOp?
    ensures SameControllers(s, Step(s, op)) && Msus(Step(s, op).events) == Msus(s.events)
  {
    match op
    case StopOp => PhaseMsus(s, AermTripped, Stopped);
    case ReceiveOp(su) => UntakenMsus(s, su);
    case CorruptedOp => CorruptedMsus(s);
    case TickOp => TickMsus(s);
    case StartOp => assert Start(s) == s;
    case SubmitOp(m) => assert Submission(s, m).0 == s;
    case LocalOutageOp => assert LocalOutage(s).events == s.events;
    case LocalRecoveryOp => assert LocalRecovery(s).events == s.events;
    case SetEmergencyOp(e) =>
    case LocalBusyOp(busy) =>
  }

  lemma InertLog(t: Trace, op: LinkOp)
    requires Inert(t.link, op)
    ensures var t' := TraceStep(t, op);
            t'.link.tx == t.link.tx && t'.link.rx == t.link.rx && t'.link.config == t.link.config
            && Msus(t'.Log()) == Msus(t.Log())
  {
    if op.PollEventOp? {
      PollLog(t);
    } else {
      InertStep(t.link, op);
      LogGrows(t.drained, t.link.events, Step(t.link, op).events, []);
    }
  }

  lemma UnstartedTick(s: LinkState)
    requires s.state.OutOfService? && !s.active
    ensures Tick(s).state.OutOfService? && !Tick(s).active
  {
    var s1 := TickHearing(s).0;
    assert s1.state.OutOfService? && !s1.active;
    var s2 := TickProving(s1).0;
    assert s2.state.OutOfService? && !s2.active;
  }

  lemma UnstartedStep(s: LinkState, op: LinkOp)
    requires s.state.OutOfService? && !s.active && !op.StartOp?
    ensures Step(s, op).state.OutOfService? && !Step(s, op).active
  {
    match op
    case ReceiveOp(su) => assert Receive(s, su) == s;
    case TickOp => UnstartedTick(s);
    case _ =>
  }

  /** A link out of service that was never started stays so until it is. */
  lemma UnstartedStays(e: End, op: LinkOp)
    requires Unstarted(e) && !Restarts(e.trace.link, op)
    ensures Unstarted(EndStep(e, op))
    ensures Delivered(EndStep(e, op)) == Delivered(e)
    ensures op.ReceiveOp? ==> !Taken(e.trace.link, op.su)
  {
    if !op.TransmitOp? && !op.SubmitOp? {
      InertLog(e.trace, op);
      UnstartedStep(e.trace.link, op);
    }
  }

  // ---- One act at end a, seen by the direction it sends in and the one it receives in ----

  lemma InertKeepsSending(a: End, b: End, ab: seq<SignalUnit>, ba: seq<SignalUnit>, f: System, op: LinkOp)
    requires Followed(a, b, ab, ba, f) && Inert(a.trace.link, op)
    ensures Followed(EndStep(a, op), b, ab, ba, f)
  {
    InertLog(a.trace, op);
    if a.starts == 0 {
      UnstartedStays(a, op);
    }
  }

  lemma InertKeepsReceiving(a: End, b: End, ab: seq<SignalUnit>, ba: seq<SignalUnit>, g: System, op: LinkOp)
    requires Followed(b, a, ba, ab, g) && Inert(a.trace.link, op)
    ensures Followed(b, EndStep(a, op), ba, ab, g)
  {
    InertLog(a.trace, op);
    if a.starts == 0 {
      UnstartedStays(a, op);
    }
  }

  /** The oldest unit towards a is lost: neither its MSU nor its acknowledgement arrives. */
  lemma LossFollowed(a: End, b: End, ab: seq<SignalUnit>, ba: seq<SignalUnit>, f: System, g: System)
    requires Followed(a, b, ab, ba, f) && Followed(b, a, ba, ab, g) && ba != []
    ensures Followed(a, b, ab, ba[1..], Apply(f, LoseAck))
    ensures Followed(b, a, ba[1..], ab, Apply(g, LoseUnit))
  {
    BooksKept(f, LoseAck);
    WindowKept(f, LoseAck);
    BooksKept(g, LoseUnit);
    WindowKept(g, LoseUnit);
  }

  /** What queueing an MSU does to an end, and what the system sees of it. */
  predicate EndSubmitted(a: End, a': End, m: Msu) {
    && a'.submitted == a.submitted + [m] && a'.starts == a.starts
    && a'.trace.link == a.trace.link.(tx := SubmitMsu(a.trace.link.tx, m))
    && Delivered(a') == Delivered(a)
  }

  lemma EndSubmits(a: End, m: Msu)
    requires m.Octets() <= MAX_MSU_BODY
    ensures EndSubmitted(a, EndStep(a, LinkOp.SubmitOp(m)), m)
  {
  }

  lemma SystemSubmits(f: System, m: Msu)
    requires Books(f) && InWindow(f)
    ensures var f' := Apply(f, Submit(m));
            && f' == f.(tx := SubmitMsu(f.tx, m), submitted := f.submitted + [m])
            && Books(f') && InWindow(f')
  {
    BooksKept(f, Submit(m));
    WindowKept(f, Submit(m));
  }

  lemma FollowedAfterSubmit(a: End, b: End, ab: seq<SignalUnit>, ba: seq<SignalUnit>, f: System,
                            a': End, m: Msu, f': System)
    requires Followed(a, b, ab, ba, f) && m.Octets() <= MAX_MSU_BODY && EndSubmitted(a, a', m)
    requires f' == f.(tx := SubmitMsu(f.tx, m), submitted := f.submitted + [m])
    requires Books(f') && InWindow(f')
    ensures Followed(a', b, ab, ba, f')
  {
  }

  lemma SubmitFollowed(a: End, b: End, ab: seq<SignalUnit>, ba: seq<SignalUnit>, f: System, m: Msu)
    requires Followed(a, b, ab, ba, f) && m.Octets() <= MAX_MSU_BODY
    ensures Followed(EndStep(a, LinkOp.SubmitOp(m)), b, ab, ba, Apply(f, Submit(m)))
  {
    EndSubmits(a, m);
    SystemSubmits(f, m);
    FollowedAfterSubmit(a, b, ab, ba, f, EndStep(a, LinkOp.SubmitOp(m)), m, Apply(f, Submit(m)));
  }

  lemma SubmitUnseen(a: End, b: End, ab: seq<SignalUnit>, ba: seq<SignalUnit>, g: System, m: Msu)
    requires Followed(b, a, ba, ab, g) && m.Octets() <= MAX_MSU_BODY
    ensures Followed(b, EndStep(a, LinkOp.SubmitOp(m)), ba, ab, g)
  {
    if a.starts == 0 {
      UnstartedStays(a, LinkOp.SubmitOp(m));
    }
  }

  /** The action of the direction a sends in that a transmission stands for. */
  function Sending(s: LinkState): Action {
    if Polls(s) then Poll else SendFill(s.tx.lastFsn, s.tx.fib)
  }

  /** A unit is in flight, and nothing else that the system sees has changed. */
  predicate SystemSent(f: System, f': System, su: SignalUnit) {
    && f'.tx.scheme == f.tx.scheme && f'.rx == f.rx && f'.backward == f.backward
    && f'.submitted == f.submitted && f'.delivered == f.delivered
    && |f'.forward| == |f.forward| + 1 && f'.forward[..|f.forward|] == f.forward
    && CarriesUnit(su, f'.forward[|f.forward|])
  }

  lemma PolledCarries(s: LinkState, f: System)
    requires f.tx == s.tx && Conserved(f.tx, f.submitted, f.freed) && Polls(s)
    requires forall i :: 0 <= i < |f.submitted| ==> f.submitted[i].Octets() <= MAX_MSU_BODY
    ensures SystemSent(f, Polled(f), FrameUnit(s, PollTx(s.tx).1))
  {
    PollConserved(f.tx, f.submitted, f.freed);
  }

  /** The unit sent is the one the followed system puts in flight. */
  lemma SentCarries(s: LinkState, f: System)
    requires f.tx == s.tx && Conserved(f.tx, f.submitted, f.freed) && Transmit(s).1.Some?
    requires forall i :: 0 <= i < |f.submitted| ==> f.submitted[i].Octets() <= MAX_MSU_BODY
    ensures SystemSent(f, Apply(f, Sending(s)), Transmit(s).1.value)
    ensures Apply(f, Sending(s)).tx == Transmit(s).0.tx
  {
    if Polls(s) {
      PolledCarries(s, f);
    }
  }

  lemma SentAcks(s: LinkState)
    requires Transmit(s).1.Some?
    ensures var h := Transmit(s).1.value.header;
            h.bsn == s.rx.lastReceived && h.bib == s.rx.bib
    ensures Transmit(s).0.rx == s.rx && Transmit(s).0.events == s.events
    ensures !(s.state.OutOfService? && !s.active)
  {
  }

  /** What transmitting does to an end. */
  predicate EndSent(a: End, a': End) {
    && a'.submitted == a.submitted && a'.starts == a.starts
    && a'.trace.link.config == a.trace.link.config && a'.trace.link.rx == a.trace.link.rx
    && Delivered(a') == Delivered(a)
  }

  lemma EndSends(a: End)
    requires Transmit(a.trace.link).1.Some?
    ensures EndSent(a, EndStep(a, TransmitOp))
    ensures EndStep(a, TransmitOp).trace.link == Transmit(a.trace.link).0
  {
    SentAcks(a.trace.link);
  }

  lemma SystemSends(s: LinkState, f: System)
    requires f.tx == s.tx && Books(f) && InWindow(f) && Transmit(s).1.Some?
    requires forall i :: 0 <= i < |f.submitted| ==> f.submitted[i].Octets() <= MAX_MSU_BODY
    requires |Transmit(s).0.tx.unacked| <= WindowOf(f.tx.scheme)
    ensures var f' := Apply(f, Sending(s));
            SystemSent(f, f', Transmit(s).1.value) && f'.tx == Transmit(s).0.tx && Books(f') && InWindow(f')
  {
    SentCarries(s, f);
    BooksKept(f, Sending(s));
    WindowKept(f, Sending(s));
  }

  lemma FollowedAfterSend(a: End, b: End, ab: seq<SignalUnit>, ba: seq<SignalUnit>, f: System,
                          a': End, su: SignalUnit, f': System)
    requires Followed(a, b, ab, ba, f) && a.starts > 0
    requires EndSent(a, a') && SystemSent(f, f', su)
    requires Books(f') && InWindow(f') && f'.tx == a'.trace.link.tx
    ensures Followed(a', b, ab + [su], ba, f')
  {
    forall i | 0 <= i < |ab| ensures CarriesUnit(ab[i], f'.forward[i]) {
      assert f'.forward[i] == f'.forward[..|f.forward|][i];
    }
  }

  /** What may be in flight for a unit sent: its header, and its MSU or no MSU. */
  predicate StandsFor(su: SignalUnit, sent: SignalUnit) {
    su.header == sent.header && (su.MsuUnit? ==> su == sent)
  }

  lemma SendFollowed(a: End, b: End, ab: seq<SignalUnit>, ba: seq<SignalUnit>, f: System, su: SignalUnit)
    requires Followed(a, b, ab, ba, f)
    requires Transmit(a.trace.link).1.Some? && StandsFor(su, Transmit(a.trace.link).1.value)
    requires |Transmit(a.trace.link).0.tx.unacked| <= WindowOf(f.tx.scheme)
    ensures Followed(EndStep(a, TransmitOp), b, ab + [su], ba, Apply(f, Sending(a.trace.link)))
  {
    var s := a.trace.link;
    EndSends(a);
    SystemSends(s, f);
    SentAcks(s);
    FollowedAfterSend(a, b, ab, ba, f, EndStep(a, TransmitOp), su, Apply(f, Sending(s)));
  }

  lemma SendReturnsAck(a: End, b: End, ab: seq<SignalUnit>, ba: seq<SignalUnit>, g: System, su: SignalUnit)
    requires Followed(b, a, ba, ab, g)
    requires Transmit(a.trace.link).1.Some? && StandsFor(su, Transmit(a.trace.link).1.value)
    ensures Followed(b, EndStep(a, TransmitOp), ba, ab + [su], Apply(g, ReturnAck))
  {
    SentAcks(a.trace.link);
    BooksKept(g, ReturnAck);
    WindowKept(g, ReturnAck);
  }

  /** The first start begins the direction a sends in afresh; nothing had been sent. */
  function Restarted(f: System, scheme: Scheme): System {
    f.(tx := NewTx(scheme), submitted := [])
  }

  lemma RestartedBooks(f: System, scheme: Scheme)
    requires Books(f) && InWindow(f) && f.tx.scheme == scheme
    requires f.forward == [] && f.tx.unacked == [] && f.freed == 0 && Untoggled(f)
    ensures Books(Restarted(f, scheme)) && InWindow(Restarted(f, scheme))
  {
    var f' := Restarted(f, scheme);
    assert f.delivered == [];
    assert forall i :: 0 <= i < |f.backward| ==> EchoOk(f, f.backward[i]) ==> EchoOk(f', f.backward[i]);
    assert forall i :: 0 <= i < |f.backward| ==> AckOk(f, f.backward[i]) ==> AckOk(f', f.backward[i]);
  }

  lemma StartFollowed(a: End, b: End, ab: seq<SignalUnit>, ba: seq<SignalUnit>, f: System)
    requires Followed(a, b, ab, ba, f) && a.starts == 0
    ensures Followed(EndStep(a, StartOp), b, ab, ba, Restarted(f, a.trace.link.config.scheme))
  {
    RestartedBooks(f, a.trace.link.config.scheme);
    assert EndStep(a, StartOp).trace.link == Start(a.trace.link);
  }

  lemma StartUnseen(a: End, b: End, ab: seq<SignalUnit>, ba: seq<SignalUnit>, g: System)
    requires Followed(b, a, ba, ab, g) && a.starts == 0
    ensures Followed(b, EndStep(a, StartOp), ba, ab, g)
  {
  }

  lemma ReceiveTrace(t: Trace, su: SignalUnit)
    ensures TraceStep(t, ReceiveOp(su)) == Trace(Receive(t.link, su), t.drained)
  {
  }

  lemma TakenLog(t: Trace, su: SignalUnit)
    requires Taken(t.link, su)
    ensures var t' := TraceStep(t, ReceiveOp(su));
            var checked := !t.link.state.ProcessorOutage?;
            && ControllersMove(t.link, t'.link, su, checked)
            && Msus(t'.Log()) == Msus(t.Log())
                 + (if su.MsuUnit? && checked then Deliverable(t.link.rx, su.header.fsn, su.msu) else [])
  {
    ReceiveTrace(t, su);
    TakenMsus(t.link, su);
    LogGrows(t.drained, t.link.events, Receive(t.link, su).events,
             if su.MsuUnit? && !t.link.state.ProcessorOutage? then Deliverable(t.link.rx, su.header.fsn, su.msu) else []);
  }

  /** What a unit that a link takes does to its end. */
  predicate EndTook(a: End, a': End, su: SignalUnit) {
    var s, checked := a.trace.link, su.MsuUnit? && !a.trace.link.state.ProcessorOutage?;
    && a'.submitted == a.submitted && a'.starts == a.starts
    && ControllersMove(s, a'.trace.link, su, !s.state.ProcessorOutage?)
    && Delivered(a') == Delivered(a) + (if checked then Deliverable(s.rx, su.header.fsn, su.msu) else [])
  }

  lemma EndTakes(a: End, su: SignalUnit)
    requires Taken(a.trace.link, su)
    ensures EndTook(a, EndStep(a, ReceiveOp(su)), su)
  {
    TakenLog(a.trace, su);
  }

  /** The acknowledgement in flight to a takes effect on what the system sees of it. */
  predicate SystemAcked(f: System, f': System)
    requires f.backward != []
  {
    && f'.tx == AckTx(f.tx, f.backward[0].bsn, f.backward[0].bib) && f'.tx.scheme == f.tx.scheme
    && f'.backward == f.backward[1..] && f'.rx == f.rx && f'.forward == f.forward
    && f'.submitted == f.submitted && f'.delivered == f.delivered
  }

  lemma SystemAcks(f: System)
    requires Books(f) && InWindow(f) && f.backward != []
    ensures var f' := Apply(f, DeliverAck); SystemAcked(f, f') && Books(f') && InWindow(f')
  {
    AckTrims(f.tx, f.backward[0].bsn, f.backward[0].bib);
    BooksKept(f, DeliverAck);
    WindowKept(f, DeliverAck);
  }

  lemma FollowedAfterAck(a: End, b: End, ab: seq<SignalUnit>, ba: seq<SignalUnit>, f: System, a': End, f': System)
    requires Followed(a, b, ab, ba, f) && ba != [] && a.starts > 0
    requires EndTook(a, a', ba[0]) && SystemAcked(f, f') && Books(f') && InWindow(f')
    ensures Followed(a', b, ab, ba[1..], f')
  {
    assert CarriesAck(ba[0], f.backward[0]);
  }

  /** A unit taken at a acknowledges what a had sent. */
  lemma AckFollowed(a: End, b: End, ab: seq<SignalUnit>, ba: seq<SignalUnit>, f: System)
    requires Followed(a, b, ab, ba, f) && ba != [] && Taken(a.trace.link, ba[0])
    ensures Followed(EndStep(a, ReceiveOp(ba[0])), b, ab, ba[1..], Apply(f, DeliverAck))
  {
    EndTakes(a, ba[0]);
    assert CarriesAck(ba[0], f.backward[0]);
    SystemAcks(f);
    FollowedAfterAck(a, b, ab, ba, f, EndStep(a, ReceiveOp(ba[0])), Apply(f, DeliverAck));
  }

  /** The action of the direction a receives in that a unit taken at a stands for. */
  function Taking(s: LinkState, su: SignalUnit): Action {
    if su.MsuUnit? && !s.state.ProcessorOutage? then DeliverUnit else LoseUnit
  }

  /** The unit in flight to a arrives, and its MSU is checked or dropped. */
  predicate SystemTook(g: System, g': System, su: SignalUnit, checked: bool) {
    && g.forward != [] && g'.forward == g.forward[1..] && g'.backward == g.backward
    && g'.tx == g.tx && g'.submitted == g.submitted
    && (if su.MsuUnit? && checked
        then g'.rx == ReceiveMsu(g.rx, su.header.fsn, su.msu).0
             && g'.delivered == g.delivered + Deliverable(g.rx, su.header.fsn, su.msu)
        else g'.rx == g.rx && g'.delivered == g.delivered)
  }

  lemma SystemTakes(g: System, su: SignalUnit, checked: bool)
    requires Books(g) && InWindow(g) && g.forward != [] && CarriesUnit(su, g.forward[0])
    ensures var g' := Apply(g, if su.MsuUnit? && checked then DeliverUnit else LoseUnit);
            SystemTook(g, g', su, checked) && Books(g') && InWindow(g')
  {
    var action := if su.MsuUnit? && checked then DeliverUnit else LoseUnit;
    WindowMakesHeadExact(g);
    BooksKept(g, action);
    WindowKept(g, action);
  }

  lemma FollowedAfterArrival(a: End, b: End, ab: seq<SignalUnit>, ba: seq<SignalUnit>, g: System, a': End, g': System)
    requires Followed(b, a, ba, ab, g) && ba != [] && a.starts > 0
    requires EndTook(a, a', ba[0]) && SystemTook(g, g', ba[0], !a.trace.link.state.ProcessorOutage?)
    requires Books(g') && InWindow(g') && b.starts > 0
    ensures Followed(b, a', ba[1..], ab, g')
  {
  }

  lemma ArrivalFollowed(a: End, b: End, ab: seq<SignalUnit>, ba: seq<SignalUnit>, g: System)
    requires Followed(b, a, ba, ab, g) && ba != [] && Taken(a.trace.link, ba[0])
    ensures Followed(b, EndStep(a, ReceiveOp(ba[0])), ba[1..], ab,
                     Apply(g, Taking(a.trace.link, ba[0])))
  {
    EndTakes(a, ba[0]);
    assert CarriesUnit(ba[0], g.forward[0]);
    SystemTakes(g, ba[0], !a.trace.link.state.ProcessorOutage?);
    FollowedAfterArrival(a, b, ab, ba, g, EndStep(a, ReceiveOp(ba[0])), Apply(g, Taking(a.trace.link, ba[0])));
  }

  // ---- Every run of the pair is followed ----

  lemma NewIsUnstarted(config: LinkConfig)
    ensures Unstarted(NewEnd(config)) && Delivered(NewEnd(config)) == []
  {
  }

  /** The bookkeeping does not depend on the scheme of the receiver. */
  lemma OtherReceiver(f: System, rx: RxState)
    requires Books(f) && InWindow(f) && Untoggled(f)
    requires rx == f.rx.(scheme := rx.scheme)
    ensures var f' := f.(rx := rx); Books(f') && InWindow(f') && Untoggled(f')
  {
    var f' := f.(rx := rx);
    assert forall i :: 0 <= i < |f.forward| ==> UnitOk(f, f.forward[i]) ==> UnitOk(f', f.forward[i]);
    assert forall i :: 0 <= i < |f.forward| ==> SweepOk(f, f.forward[i]) ==> SweepOk(f', f.forward[i]);
    assert forall i :: 0 <= i < |f.backward| ==> EchoOk(f, f.backward[i]) ==> EchoOk(f', f.backward[i]);
  }

  lemma NewDirection(scheme: Scheme, rx: RxState)
    requires rx == NewRx(rx.scheme)
    ensures var f := NewSystem(scheme).(rx := rx); Books(f) && InWindow(f) && Untoggled(f)
  {
    BooksNew(scheme);
    InWindowNew(scheme);
    OtherReceiver(NewSystem(scheme), rx);
  }

  lemma NewFollowed(configA: LinkConfig, configB: LinkConfig)
    ensures Followed(NewEnd(configA), NewEnd(configB), [], [], NewSystem(configA.scheme).(rx := NewRx(configB.scheme)))
  {
    NewDirection(configA.scheme, NewRx(configB.scheme));
    NewIsUnstarted(configA);
    NewIsUnstarted(configB);
  }

  lemma NewCoupled(configA: LinkConfig, configB: LinkConfig) returns (f: System, g: System)
    ensures Coupled(NewPair(configA, configB), f, g)
  {
    f := NewSystem(configA.scheme).(rx := NewRx(configB.scheme));
    g := NewSystem(configB.scheme).(rx := NewRx(configA.scheme));
    NewFollowed(configA, configB);
    NewFollowed(configB, configA);
  }

  lemma LocalCoupled(p: Pair, op: LinkOp, f: System, g: System) returns (f': System, g': System)
    requires Coupled(p, f, g) && !op.TransmitOp? && !op.ReceiveOp?
    requires Admitted(p.(a := EndStep(p.a, op)))
    ensures Coupled(p.(a := EndStep(p.a, op)), f', g')
  {
    f', g' := f, g;
    if Restarts(p.a.trace.link, op) {
      StartFollowed(p.a, p.b, p.ab, p.ba, f);
      StartUnseen(p.a, p.b, p.ab, p.ba, g);
      f' := Restarted(f, p.a.trace.link.config.scheme);
    } else if op.SubmitOp? && op.msu.Octets() <= MAX_MSU_BODY {
      SubmitFollowed(p.a, p.b, p.ab, p.ba, f, op.msu);
      SubmitUnseen(p.a, p.b, p.ab, p.ba, g, op.msu);
      f' := Apply(f, Submit(op.msu));
    } else {
      InertKeepsSending(p.a, p.b, p.ab, p.ba, f, op);
      InertKeepsReceiving(p.a, p.b, p.ab, p.ba, g, op);
    }
  }

  lemma SentCoupled(p: Pair, f: System, g: System, su: SignalUnit) returns (f': System, g': System)
    requires Coupled(p, f, g) && AdmittedEnd(EndStep(p.a, TransmitOp))
    requires Transmit(p.a.trace.link).1.Some? && StandsFor(su, Transmit(p.a.trace.link).1.value)
    ensures Coupled(p.(a := EndStep(p.a, TransmitOp), ab := p.ab + [su]), f', g')
  {
    EndSends(p.a);
    SendFollowed(p.a, p.b, p.ab, p.ba, f, su);
    SendReturnsAck(p.a, p.b, p.ab, p.ba, g, su);
    f', g' := Apply(f, Sending(p.a.trace.link)), Apply(g, ReturnAck);
  }

  lemma SendCoupled(p: Pair, f: System, g: System) returns (f': System, g': System)
    requires Coupled(p, f, g) && Admitted(StepA(p, Send))
    ensures Coupled(StepA(p, Send), f', g')
  {
    f', g' := f, g;
    var sent := Transmit(p.a.trace.link).1;
    if sent.Some? {
      f', g' := SentCoupled(p, f, g, sent.value);
    } else {
      assert EndStep(p.a, TransmitOp) == p.a && p.ab + [] == p.ab;
    }
  }

  /** A unit that is lost, corrupted or not taken. */
  lemma LossCoupled(p: Pair, act: Act, f: System, g: System) returns (f': System, g': System)
    requires Coupled(p, f, g) && p.ba != [] && (act.Deliver? || act.Lose? || act.Corrupt?)
    requires act.Deliver? ==> !Taken(p.a.trace.link, p.ba[0])
    ensures Coupled(StepA(p, act), f', g')
  {
    LossFollowed(p.a, p.b, p.ab, p.ba, f, g);
    f', g' := Apply(f, LoseAck), Apply(g, LoseUnit);
    if !act.Lose? {
      var op := if act.Deliver? then ReceiveOp(p.ba[0]) else CorruptedOp;
      InertKeepsSending(p.a, p.b, p.ab, p.ba[1..], f', op);
      InertKeepsReceiving(p.a, p.b, p.ab, p.ba[1..], g', op);
    }
  }

  lemma ArriveCoupled(p: Pair, act: Act, f: System, g: System) returns (f': System, g': System)
    requires Coupled(p, f, g) && p.ba != [] && (act.Deliver? || act.Lose? || act.Corrupt?)
    requires Admitted(StepA(p, act))
    ensures Coupled(StepA(p, act), f', g')
  {
    if act.Deliver? && Taken(p.a.trace.link, p.ba[0]) {
      AckFollowed(p.a, p.b, p.ab, p.ba, f);
      ArrivalFollowed(p.a, p.b, p.ab, p.ba, g);
      f', g' := Apply(f, DeliverAck), Apply(g, Taking(p.a.trace.link, p.ba[0]));
    } else {
      f', g' := LossCoupled(p, act, f, g);
    }
  }

  lemma StepACoupled(p: Pair, act: Act, f: System, g: System) returns (f': System, g': System)
    requires Coupled(p, f, g) && Admitted(StepA(p, act))
    ensures Coupled(StepA(p, act), f', g')
  {
    f', g' := f, g;
    match act
    case Local(op) =>
      if !op.TransmitOp? && !op.ReceiveOp? {
        f', g' := LocalCoupled(p, op, f, g);
      }
    case Send => f', g' := SendCoupled(p, f, g);
    case Deliver => if p.ba != [] { f', g' := ArriveCoupled(p, act, f, g); }
    case Lose => if p.ba != [] { f', g' := ArriveCoupled(p, act, f, g); }
    case Corrupt => if p.ba != [] { f', g' := ArriveCoupled(p, act, f, g); }
  }

  /** The hypothesis on a run: every state on the way is admitted. */
  ghost predicate AlwaysAdmitted(configA: LinkConfig, configB: LinkConfig, acts: seq<PairAct>) {
    && Admitted(PairRun(configA, configB, acts))
    && (acts != [] ==> AlwaysAdmitted(configA, configB, acts[..|acts| - 1]))
  }

  lemma {:induction false} RunCoupled(configA: LinkConfig, configB: LinkConfig, acts: seq<PairAct>)
    returns (f: System, g: System)
    requires AlwaysAdmitted(configA, configB, acts)
    ensures Coupled(PairRun(configA, configB, acts), f, g)
  {
    if acts == [] {
      f, g := NewCoupled(configA, configB);
    } else {
      f, g := RunCoupled(configA, configB, acts[..|acts| - 1]);
      var before := PairRun(configA, configB, acts[..|acts| - 1]);
      match acts[|acts| - 1]
      case AtA(act) => f, g := StepACoupled(before, act, f, g);
      case AtB(act) => g, f := StepACoupled(Swap(before), act, g, f);
    }
  }

  /**
   * In every run of two fresh links, each started at most once and with at most 127 MSUs
   * outstanding (128 under the Basic method), the MSUs one end reports are a prefix of those
   * queued at the other since its start, in both directions, whatever is lost and whatever
   * the links go through.
   */
  lemma LinksDeliverExactlyOnce(configA: LinkConfig, configB: LinkConfig, acts: seq<PairAct>)
    requires AlwaysAdmitted(configA, configB, acts)
    ensures var p := PairRun(configA, configB, acts);
            Delivered(p.b) <= p.a.submitted && Delivered(p.a) <= p.b.submitted
  {
    var f, g := RunCoupled(configA, configB, acts);
  }

  // ---- PCR links need no hypothesis on what is outstanding ----

  predicate SmallPcr(scheme: Scheme) {
    scheme.Pcr? && (scheme.params.n1 <= WINDOW || scheme.params.n2 <= WINDOW)
  }

  ghost predicate PcrEnd(e: End) {
    && SmallPcr(e.trace.link.config.scheme)
    && e.trace.link.tx.scheme == e.trace.link.config.scheme
    && PcrWindow(e.trace.link.tx)
  }

  lemma PcrReceive(s: LinkState, su: SignalUnit)
    requires s.tx.scheme.Pcr? && PcrWindow(s.tx)
    ensures var s' := Receive(s, su);
            s'.config == s.config && s'.tx.scheme == s.tx.scheme && PcrWindow(s'.tx)
  {
    var tx' := Receive(s, su).tx;
    assert tx' == s.tx || tx' == AckTx(s.tx, su.header.bsn, su.header.bib);
    AckPcrBounds(s.tx, 0, su.header.bsn, su.header.bib);
  }

  lemma PcrTransmit(s: LinkState)
    requires s.tx.scheme.Pcr? && PcrWindow(s.tx)
    ensures var s' := Transmit(s).0;
            s'.config == s.config && s'.tx.scheme == s.tx.scheme && PcrWindow(s'.tx)
  {
    PollPcrWindow(s.tx);
    assert PollTx(s.tx).0.scheme == s.tx.scheme;
  }

  lemma PcrStart(s: LinkState)
    requires s.tx.scheme == s.config.scheme && PcrWindow(s.tx)
    ensures var s' := Start(s);
            s'.config == s.config && s'.tx.scheme == s.tx.scheme && PcrWindow(s'.tx)
  {
  }

  lemma PcrSubmission(s: LinkState, m: Msu)
    requires PcrWindow(s.tx)
    ensures var s' := Submission(s, m).0;
            s'.config == s.config && s'.tx.scheme == s.tx.scheme && PcrWindow(s'.tx)
  {
  }

  lemma PcrStep(s: LinkState, op: LinkOp)
    requires s.tx.scheme == s.config.scheme && s.tx.scheme.Pcr? && PcrWindow(s.tx)
    ensures var s' := Step(s, op);
            s'.config == s.config && s'.tx.scheme == s.tx.scheme && PcrWindow(s'.tx)
  {
    match op
    case TransmitOp => PcrTransmit(s);
    case ReceiveOp(su) => PcrReceive(s, su);
    case StartOp => PcrStart(s);
    case SubmitOp(m) => PcrSubmission(s, m);
    case _ => ControllersStay(s, op);
  }

  lemma PcrEndKept(e: End, op: LinkOp)
    requires PcrEnd(e)
    ensures PcrEnd(EndStep(e, op))
  {
    PcrStep(e.trace.link, op);
  }

  lemma StartsOnlyGrow(p: Pair, x: PairAct)
    ensures p.a.starts <= PairStep(p, x).a.starts && p.b.starts <= PairStep(p, x).b.starts
  {
  }

  lemma PcrStepA(p: Pair, act: Act)
    requires PcrEnd(p.a)
    ensures PcrEnd(StepA(p, act).a) && StepA(p, act).b == p.b
  {
    match act
    case Local(op) => PcrEndKept(p.a, op);
    case Send => PcrEndKept(p.a, TransmitOp);
    case Deliver => if p.ba != [] { PcrEndKept(p.a, ReceiveOp(p.ba[0])); }
    case Lose =>
    case Corrupt => PcrEndKept(p.a, CorruptedOp);
  }

  lemma {:induction false} PcrRun(configA: LinkConfig, configB: LinkConfig, acts: seq<PairAct>)
    requires SmallPcr(configA.scheme) && SmallPcr(configB.scheme)
    requires var p := PairRun(configA, configB, acts); p.a.starts <= 1 && p.b.starts <= 1
    ensures var p := PairRun(configA, configB, acts); PcrEnd(p.a) && PcrEnd(p.b)
    ensures AlwaysAdmitted(configA, configB, acts)
  {
    if acts != [] {
      var before := PairRun(configA, configB, acts[..|acts| - 1]);
      StartsOnlyGrow(before, acts[|acts| - 1]);
      PcrRun(configA, configB, acts[..|acts| - 1]);
      match acts[|acts| - 1]
      case AtA(act) => PcrStepA(before, act);
      case AtB(act) => PcrStepA(Swap(before), act);
    }
  }

  /** Two PCR links with N1 or N2 at most 127 deliver exactly once in every such run. */
  lemma PcrLinksDeliverExactlyOnce(configA: LinkConfig, configB: LinkConfig, acts: seq<PairAct>)
    requires SmallPcr(configA.scheme) && SmallPcr(configB.scheme)
    requires var p := PairRun(configA, configB, acts); p.a.starts <= 1 && p.b.starts <= 1
    ensures var p := PairRun(configA, configB, acts);
            Delivered(p.b) <= p.a.submitted && Delivered(p.a) <= p.b.submitted
  {
    PcrRun(configA, configB, acts);
    LinksDeliverExactlyOnce(configA, configB, acts);
  }
}
