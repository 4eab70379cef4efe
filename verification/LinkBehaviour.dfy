/**
 * What a link does in every run, told from the operations, the states and the log alone: the
 * events and the state each operation leads to, and the unit the link sends.
 */
module LinkBehaviour {
  import opened Basics
  import opened Retransmission
  import opened TransmitBuffer
  import opened Monitor
  import opened LeakyBucket
  import opened SignalUnits
  import opened LinkControl
  import opened Deliveries
  import opened LinkInvariants
  import opened ProvingPeriod
  import opened EventLog
  import opened LinkDelivery
  import opened Observer
  import opened ObservedLink

  // ---- The attempts and the controllers ----

  lemma AttemptKept(s: LinkState, op: LinkOp)
    requires LinkOk(s) && !EntersProving(s, op) && !Restarts(s, op)
    ensures Step(s, op).provingAttempt == s.provingAttempt
  {
    match op
    case ReceiveOp(su) => ReceiveSameProving(s, su);
    case CorruptedOp => CorruptedEffect(s);
    case TickOp =>
      if s.state.Proving? {
        ProvingTick(s);
      } else {
        IdleTick(s);
      }
    case StartOp => StartEffect(s);
    case _ => OtherStepsStay(s, op);
  }

  lemma AttemptCounted(w: Watch, link': LinkState)
    requires w.link.provingAttempt == w.entries % 0x1_0000_0000 && JustEntered(w.link, link')
    ensures link'.provingAttempt == Reentered(w, link').entries % 0x1_0000_0000
  {
    NextRemainder(w.entries, 0x1_0000_0000);
  }

  lemma AttemptsCounted(w: Watch, op: LinkOp)
    requires LinkOk(w.link) && w.link.provingAttempt == w.entries % 0x1_0000_0000
    ensures WatchStep(w, op).link.provingAttempt == WatchStep(w, op).entries % 0x1_0000_0000
  {
    if EntersProving(w.link, op) {
      EnteringEffect(w.link, op.su);
      AttemptCounted(w, Step(w.link, op));
    } else if Restarts(w.link, op) {
      StartEffect(w.link);
    } else {
      AttemptKept(w.link, op);
    }
  }

  lemma WatchNoted(w: Notes, op: LinkOp)
    requires LinkOk(w.trace.link) && ProvingNotes(w)
    ensures ProvingNotes(NoteStep(w, op))
  {
    WatchKept(w.proving, op);
    AttemptsCounted(w.proving, op);
  }

  lemma SameKept(w: Notes, w': Notes)
    requires ControllerNotes(w) && w'.queued == w.queued && w'.reported == w.reported
    requires var s, s' := w.trace.link, w'.trace.link; s'.config == s.config && s'.rx == s.rx && s'.tx == s.tx
    ensures ControllerNotes(w')
  {
  }

  /** Operations that leave the controllers and what is queued and reported alone. */
  lemma InertNoted(w: Notes, op: LinkOp)
    requires ControllerNotes(w) && Inert(w.trace.link, op)
    ensures ControllerNotes(NoteStep(w, op))
  {
    InertLog(w.trace, op);
    SameKept(w, NoteStep(w, op));
  }

  lemma LongerQueue(w: Notes, m: Msu, w': Notes)
    requires ControllerNotes(w) && m.Octets() <= MAX_MSU_BODY
    requires w'.queued == w.queued + [m] && w'.reported == w.reported
    requires w'.trace.link == w.trace.link.(tx := SubmitMsu(w.trace.link.tx, m))
    ensures ControllerNotes(w')
  {
    SubmitBalanced(w.trace.link.tx, w.queued, 0, m);
  }

  lemma QueuedKept(w: Notes, m: Msu)
    requires ControllerNotes(w) && m.Octets() <= MAX_MSU_BODY
    ensures ControllerNotes(NoteStep(w, LinkOp.SubmitOp(m)))
  {
    LongerQueue(w, m, NoteStep(w, LinkOp.SubmitOp(m)));
  }

  lemma SentKept(w: Notes, w': Notes)
    requires ControllerNotes(w) && w'.queued == w.queued && w'.reported == w.reported
    requires var s, s' := w.trace.link, w'.trace.link;
             s'.config == s.config && s'.rx == s.rx && (s'.tx == s.tx || s'.tx == PollTx(s.tx).0)
    ensures ControllerNotes(w')
  {
    var tx := w.trace.link.tx;
    PollBalanced(tx, w.queued, 0);
    PollConserved(tx, w.queued, Released(tx, w.queued));
  }

  lemma PolledKept(w: Notes)
    requires ControllerNotes(w)
    ensures ControllerNotes(NoteStep(w, TransmitOp))
  {
    SentKept(w, NoteStep(w, TransmitOp));
  }

  lemma RestartKept(w: Notes)
    requires w.trace.link.state.OutOfService?
    ensures ControllerNotes(NoteStep(w, StartOp))
  {
    NewConserved(w.trace.link.config.scheme);
  }

  /** How many MSUs a unit that reaches the controllers reports: one or none. */
  function Reports(s: LinkState, su: SignalUnit): nat {
    if su.MsuUnit? && !s.state.ProcessorOutage? then |Deliverable(s.rx, su.header.fsn, su.msu)| else 0
  }

  lemma TakenReports(w: Notes, su: SignalUnit)
    requires Taken(w.trace.link, su)
    ensures NoteReported(w, ReceiveOp(su), TraceStep(w.trace, ReceiveOp(su))) == w.reported + Reports(w.trace.link, su)
    ensures ControllersMove(w.trace.link, Receive(w.trace.link, su), su, !w.trace.link.state.ProcessorOutage?)
  {
    TakenLog(w.trace, su);
  }

  /** The number last accepted moves with the number of MSUs reported. */
  lemma NumberKept(rx: RxState, reported: nat, fsn: octet, m: Msu)
    requires (rx.lastReceived - (reported + 127)) % 128 == 0
    ensures (ReceiveMsu(rx, fsn, m).0.lastReceived - (reported + |Deliverable(rx, fsn, m)| + 127)) % 128 == 0
    ensures ReceiveMsu(rx, fsn, m).0.scheme == rx.scheme
  {
  }

  lemma AckKept(tx: TxState, queued: seq<Msu>, su: SignalUnit)
    requires Balanced(tx, queued, 0)
    ensures var tx' := AckTx(tx, su.header.bsn, su.header.bib); Balanced(tx', queued, 0) && tx'.scheme == tx.scheme
  {
    AckBalanced(tx, queued, 0, su.header.bsn, su.header.bib);
    AckTrims(tx, su.header.bsn, su.header.bib);
  }

  lemma MovedKept(w: Notes, su: SignalUnit, w': Notes)
    requires ControllerNotes(w) && w'.queued == w.queued
    requires w'.reported == w.reported + Reports(w.trace.link, su)
    requires ControllersMove(w.trace.link, w'.trace.link, su, !w.trace.link.state.ProcessorOutage?)
    ensures ControllerNotes(w')
  {
    var s := w.trace.link;
    AckKept(s.tx, w.queued, su);
    if su.MsuUnit? {
      NumberKept(s.rx, w.reported, su.header.fsn, su.msu);
    }
  }

  lemma TakenKept(w: Notes, su: SignalUnit)
    requires ControllerNotes(w) && Taken(w.trace.link, su)
    ensures ControllerNotes(NoteStep(w, ReceiveOp(su)))
  {
    TakenReports(w, su);
    MovedKept(w, su, NoteStep(w, ReceiveOp(su)));
  }

  lemma ControllersNoted(w: Notes, op: LinkOp)
    requires ControllerNotes(w)
    ensures ControllerNotes(NoteStep(w, op))
  {
    if Inert(w.trace.link, op) {
      InertNoted(w, op);
    } else {
      match op
      case StartOp => RestartKept(w);
      case SubmitOp(m) => QueuedKept(w, m);
      case TransmitOp => PolledKept(w);
      case ReceiveOp(su) => TakenKept(w, su);
    }
  }

  // ---- Every step, every run ----

  lemma StepNoted(w: Notes, op: LinkOp)
    requires Matches(w) && !op.PollEventOp?
    ensures Noted(w, op, Step(w.trace.link, op))
  {
    match op
    case StartOp => StartNoted(w);
    case StopOp => StopNoted(w);
    case SetEmergencyOp(_) => FlagNoted(w, op, Step(w.trace.link, op));
    case LocalBusyOp(_) => FlagNoted(w, op, Step(w.trace.link, op));
    case LocalOutageOp => OutageNoted(w);
    case LocalRecoveryOp => RecoveryNoted(w);
    case SubmitOp(m) => SubmissionNoted(w, m);
    case TransmitOp => TransmitNoted(w);
    case ReceiveOp(su) => ReceiveNoted(w, su);
    case CorruptedOp => CorruptedNoted(w);
    case TickOp => TickNoted(w);
  }

  /** These notes do not depend on what was reported or proved. */
  lemma SameLinkNotes(w: Notes, w': Notes)
    requires OwnNotes(w)
    requires w'.trace.link == w.trace.link
    requires w' == w.(trace := w'.trace, reported := w'.reported, proving := w'.proving)
    ensures OwnNotes(w')
  {
  }

  lemma NextNotes(w: Notes, op: LinkOp, link': LinkState, t: Trace, reported: nat, proving: Watch)
    requires t.link == link'
    ensures NoteNext(w, op, t, reported, proving)
         == NoteNext(w, op, Trace(link', []), 0, w.proving).(trace := t, reported := reported, proving := proving)
  {
  }

  lemma NotesFollow(w: Notes, op: LinkOp, w': Notes)
    requires Noted(w, op, w'.trace.link) && w' == NoteNext(w, op, w'.trace, w'.reported, w'.proving)
    ensures OwnNotes(w')
  {
    NextNotes(w, op, w'.trace.link, w'.trace, w'.reported, w'.proving);
    SameLinkNotes(NoteNext(w, op, Trace(w'.trace.link, []), 0, w.proving), w');
  }

  /** Taking an event is no concern of the notes. */
  lemma EventTaken(w: Notes, w': Notes)
    requires OwnNotes(w)
    requires w'.trace.link == w.trace.link.(events := w'.trace.link.events)
    requires w' == w.(trace := w'.trace, quiet := w'.quiet, hush := w'.hush, reported := w'.reported, proving := w'.proving)
    requires w.trace.link.Serving() ==> w'.hush == w.hush && (w.trace.link.tx.unacked != [] ==> w'.quiet == w.quiet)
    ensures OwnNotes(w')
  {
  }

  lemma PollEventNotes(w: Notes, t: Trace, reported: nat, proving: Watch)
    requires t.link.state == w.trace.link.state && ServiceNotes(w)
    ensures var w' := NoteNext(w, PollEventOp, t, reported, proving);
            && w' == w.(trace := t, quiet := w'.quiet, hush := w'.hush, reported := reported, proving := proving)
            && (w.trace.link.Serving() ==>
                  w'.hush == w.hush && (w.trace.link.tx.unacked != [] ==> w'.quiet == w.quiet))
  {
  }

  lemma EventFollows(w: Notes, w': Notes)
    requires OwnNotes(w) && w'.trace.link == w.trace.link.(events := w'.trace.link.events)
    requires w' == NoteNext(w, PollEventOp, w'.trace, w'.reported, w'.proving)
    ensures OwnNotes(w')
  {
    PollEventNotes(w, w'.trace, w'.reported, w'.proving);
    EventTaken(w, w');
  }

  /** An operation raises what is expected and leads where it should. */
  ghost predicate AsNoted(w: Notes, op: LinkOp) {
    var t' := TraceStep(w.trace, op);
    t'.Log() == w.trace.Log() + Expected(w, op) && t'.link.state == Leads(w, op)
  }

  lemma LogGrowsBy(drained: seq<Event>, events: seq<Event>, more: seq<Event>)
    ensures drained + (events + more) == (drained + events) + more
  {
  }

  lemma LogAppends(w: Notes, op: LinkOp)
    requires !op.PollEventOp? && Noted(w, op, Step(w.trace.link, op))
    ensures AsNoted(w, op)
  {
    LogGrowsBy(w.trace.drained, w.trace.link.events, Expected(w, op));
  }

  lemma StepOwn(w: Notes, op: LinkOp)
    requires Matches(w)
    ensures OwnNotes(NoteStep(w, op)) && AsNoted(w, op)
  {
    if op.PollEventOp? {
      PollLog(w.trace);
      EventFollows(w, NoteStep(w, op));
    } else {
      StepNoted(w, op);
      NotesFollow(w, op, NoteStep(w, op));
      LogAppends(w, op);
    }
  }

  lemma StepMatches(w: Notes, op: LinkOp)
    requires Matches(w)
    ensures Matches(NoteStep(w, op)) && AsNoted(w, op)
  {
    StepKeeps(w.trace.link, op);
    WatchNoted(w, op);
    ControllersNoted(w, op);
    StepOwn(w, op);
  }

  lemma NewMatches(config: LinkConfig)
    ensures Matches(NoteRun(config, []))
  {
    NewLinkOk(config);
    NewConserved(config.scheme);
  }

  lemma {:induction false} RunMatches(config: LinkConfig, ops: seq<LinkOp>)
    ensures Matches(NoteRun(config, ops))
    ensures NoteRun(config, ops).trace == LinkRun(config, ops)
    ensures NoteRun(config, ops).trace.link.config == config
  {
    if ops == [] {
      NewMatches(config);
    } else {
      RunMatches(config, ops[..|ops| - 1]);
      StepMatches(NoteRun(config, ops[..|ops| - 1]), ops[|ops| - 1]);
      LinkInvariant(config, ops);
    }
  }

  lemma OneOpMore(config: LinkConfig, ops: seq<LinkOp>, op: LinkOp)
    ensures NoteRun(config, ops + [op]) == NoteStep(NoteRun(config, ops), op)
    ensures LinkRun(config, ops + [op]) == TraceStep(LinkRun(config, ops), op)
  {
    assert (ops + [op])[..|ops|] == ops;
  }

  // ---- Events and states ----

  /** In every run, an operation raises exactly the expected events and leads to the expected state. */
  lemma EveryStepIsExpected(config: LinkConfig, ops: seq<LinkOp>, op: LinkOp)
    ensures var w, t, t' := NoteRun(config, ops), LinkRun(config, ops), LinkRun(config, ops + [op]);
            t'.Log() == t.Log() + Expected(w, op) && t'.link.state == Leads(w, op)
  {
    OneOpMore(config, ops, op);
    RunMatches(config, ops);
    StepMatches(NoteRun(config, ops), op);
  }

  /** The log gains this event with the operation. */
  ghost predicate Raises(config: LinkConfig, ops: seq<LinkOp>, op: LinkOp, e: Event) {
    var t, t' := LinkRun(config, ops), LinkRun(config, ops + [op]);
    |t'.Log()| > |t.Log()| && e in t'.Log()[|t.Log()|..]
  }

  lemma RaisesIff(config: LinkConfig, ops: seq<LinkOp>, op: LinkOp, e: Event)
    ensures Raises(config, ops, op, e) <==> e in Expected(NoteRun(config, ops), op)
  {
    EveryStepIsExpected(config, ops, op);
    var t, t' := LinkRun(config, ops), LinkRun(config, ops + [op]);
    assert t'.Log()[|t.Log()|..] == Expected(NoteRun(config, ops), op);
  }

  /** A unit taken in service raises nothing that ends it. */
  lemma TrafficEndsNothing(w: Notes, su: SignalUnit, reason: OutOfServiceReason)
    requires !su.Lssu? && Serves(w.trace.link.state) && !TooManyErrors(w, false)
    ensures Event.OutOfService(reason) !in HeardInService(w, su)
  {
    var ended := (if w.peerOutage then [RemoteProcessorRecovered] else [])
                 + (if w.peerBusy then [RemoteBusyEnded] else []);
    assert Event.OutOfService(reason) !in ended;
  }

  lemma HeardEnds(w: Notes, su: SignalUnit, reason: OutOfServiceReason)
    requires Serves(w.trace.link.state)
    ensures Event.OutOfService(reason) in HeardInService(w, su)
       <==> if TooManyErrors(w, false) then reason.SuermFailure?
            else if !su.Lssu? then false
            else match su.status
                 case OutOfService => reason == OutOfServiceReason.ReceivedSios
                 case ProcessorOutage => false
                 case Busy => false
                 case _ => reason == AlignmentLost
  {
    if !su.Lssu? && !TooManyErrors(w, false) {
      TrafficEndsNothing(w, su, reason);
    }
  }

  lemma HeardBeforeEndsNothing(w: Notes, su: SignalUnit, reason: OutOfServiceReason)
    ensures Event.OutOfService(reason) !in HeardBefore(w, su)
  {
  }

  lemma ErrorsExpected(w: Notes, op: LinkOp)
    ensures Event.OutOfService(SuermFailure) in Expected(w, op)
       <==> Serves(w.trace.link.state) && (op.ReceiveOp? || op.CorruptedOp?) && TooManyErrors(w, op.CorruptedOp?)
  {
    if op.ReceiveOp? {
      if Serves(w.trace.link.state) {
        HeardEnds(w, op.su, SuermFailure);
      } else {
        HeardBeforeEndsNothing(w, op.su, SuermFailure);
      }
    }
  }

  lemma TimerEventsOnlyFromTicks(w: Notes, op: LinkOp)
    requires !op.TickOp?
    ensures Event.OutOfService(T6Expired) !in Expected(w, op) && Event.OutOfService(T7Expired) !in Expected(w, op)
    ensures AlignmentFailed(T1Expired) !in Expected(w, op) && AlignmentFailed(T2Expired) !in Expected(w, op)
    ensures AlignmentFailed(T3Expired) !in Expected(w, op)
  {
    if op.ReceiveOp? {
      if Serves(w.trace.link.state) {
        HeardEnds(w, op.su, T6Expired);
        HeardEnds(w, op.su, T7Expired);
      } else {
        HeardBeforeEndsNothing(w, op.su, T6Expired);
        HeardBeforeEndsNothing(w, op.su, T7Expired);
      }
    }
  }

  /**
   * The error-rate monitor in every run: the link goes out of service for its error rate with
   * the unit, heard or errored, that makes some window of this session's units exceed its
   * leaks by the threshold, and only then.
   */
  lemma ErrorRateEndsServiceIff(config: LinkConfig, ops: seq<LinkOp>, op: LinkOp)
    ensures var w := NoteRun(config, ops);
            var ends := ErrorBurst(w.history + [op.CorruptedOp?], Period(config.suermInterval), config.suermThreshold);
            Raises(config, ops, op, Event.OutOfService(SuermFailure))
            <==> Serves(w.trace.link.state) && (op.ReceiveOp? || op.CorruptedOp?) && ends
  {
    RaisesIff(config, ops, op, Event.OutOfService(SuermFailure));
    RunMatches(config, ops);
    ErrorsExpected(NoteRun(config, ops), op);
  }

  /**
   * The peer's conditions in every run: the log tells a congested peer iff a SIB was heard in
   * service with no FISU or MSU after it, and an outage iff a SIPO was, the one that began
   * service included.
   */
  lemma LogTellsWhatWasHeard(config: LinkConfig, ops: seq<LinkOp>)
    ensures var w, t := NoteRun(config, ops), LinkRun(config, ops);
            Replay(t.Log()) == if Serves(t.link.state) then Up(w.peerBusy, w.peerOutage) else Down
  {
    RunMatches(config, ops);
    LogTellsSession(config, ops);
  }

  lemma GoodUnitPasses(config: LinkConfig, ops: seq<LinkOp>)
    requires config.suermThreshold >= 1 && Serves(LinkRun(config, ops).link.state)
    ensures !TooManyErrors(NoteRun(config, ops), false)
  {
    RunMatches(config, ops);
    MonitorJudges(NoteRun(config, ops), false);
    GoodUnitNeverTripsSuerm(config, ops, Fisu(SuHeader(0, false, 0, false)));
  }

  /** A SIOS ends service as such; any status of an aligning peer ends it as lost alignment. */
  lemma StatusEndsService(config: LinkConfig, ops: seq<LinkOp>, su: SignalUnit)
    requires config.suermThreshold >= 1 && Serves(LinkRun(config, ops).link.state) && su.Lssu?
    ensures var state' := LinkRun(config, ops + [ReceiveOp(su)]).link.state;
            && (Raises(config, ops, ReceiveOp(su), Event.OutOfService(OutOfServiceReason.ReceivedSios))
                <==> su.status.OutOfService?)
            && (Raises(config, ops, ReceiveOp(su), Event.OutOfService(AlignmentLost))
                <==> su.status.OutOfAlignment? || su.status.NormalAlignment? || su.status.EmergencyAlignment?)
            && (su.status.ProcessorOutage? || su.status.Busy? ==> state' == LinkRun(config, ops).link.state)
  {
    RaisesIff(config, ops, ReceiveOp(su), Event.OutOfService(OutOfServiceReason.ReceivedSios));
    RaisesIff(config, ops, ReceiveOp(su), Event.OutOfService(AlignmentLost));
    EveryStepIsExpected(config, ops, ReceiveOp(su));
    GoodUnitPasses(config, ops);
    RunMatches(config, ops);
    HeardEnds(NoteRun(config, ops), su, OutOfServiceReason.ReceivedSios);
    HeardEnds(NoteRun(config, ops), su, AlignmentLost);
  }

  /** Whether a tick ends what lasts at most `period` ticks, of which `elapsed` are over. */
  predicate Ends(op: LinkOp, elapsed: nat, period: u32) {
    op.TickOp? && elapsed + 1 == AtLeastOne(period)
  }

  lemma AlignmentTimersExpected(w: Notes, op: LinkOp)
    requires TimerNotes(w)
    ensures var state, c := w.trace.link.state, w.trace.link.config;
            && (AlignmentFailed(T2Expired) in Expected(w, op) <==> state.NotAligned? && Ends(op, w.age, c.t2NotAligned))
            && (AlignmentFailed(T3Expired) in Expected(w, op) <==> state.Aligned? && Ends(op, w.age, c.t3Aligned))
            && (AlignmentFailed(T1Expired) in Expected(w, op) <==> state.AlignedReady? && Ends(op, w.age, c.t1AlignedReady))
  {
    if op.TickOp? {
      assert Expected(w, op) == TickEvents(w);
    } else {
      TimerEventsOnlyFromTicks(w, op);
    }
  }

  lemma ServiceTimersExpected(w: Notes, op: LinkOp)
    requires ServiceNotes(w) && TimerNotes(w)
    ensures var s, c := w.trace.link, w.trace.link.config;
            var t6 := w.peerBusy && Ends(op, w.hush, c.t6RemoteCongestion);
            && (Event.OutOfService(T6Expired) in Expected(w, op) <==> Serves(s.state) && t6)
            && (Event.OutOfService(T7Expired) in Expected(w, op)
                <==> Serves(s.state) && !t6 && s.tx.unacked != [] && Ends(op, w.quiet, c.t7ExcessiveDelay))
  {
    if op.TickOp? {
      assert Expected(w, op) == TickEvents(w);
    } else {
      TimerEventsOnlyFromTicks(w, op);
    }
  }

  /**
   * Deadlines before service, in every run: T2, T3 and T1 fail the alignment exactly with the
   * tick that completes their period in their state.
   */
  lemma AlignmentDeadlines(config: LinkConfig, ops: seq<LinkOp>, op: LinkOp)
    ensures var w, state := NoteRun(config, ops), LinkRun(config, ops).link.state;
            && (Raises(config, ops, op, AlignmentFailed(T2Expired))
                <==> state.NotAligned? && Ends(op, w.age, config.t2NotAligned))
            && (Raises(config, ops, op, AlignmentFailed(T3Expired))
                <==> state.Aligned? && Ends(op, w.age, config.t3Aligned))
            && (Raises(config, ops, op, AlignmentFailed(T1Expired))
                <==> state.AlignedReady? && Ends(op, w.age, config.t1AlignedReady))
  {
    RaisesIff(config, ops, op, AlignmentFailed(T2Expired));
    RaisesIff(config, ops, op, AlignmentFailed(T3Expired));
    RaisesIff(config, ops, op, AlignmentFailed(T1Expired));
    RunMatches(config, ops);
    AlignmentTimersExpected(NoteRun(config, ops), op);
  }

  /**
   * Deadlines in service, in every run: T6 takes the link out exactly with the tick that
   * completes its period since the last SIB of a peer still congested; T7 with the tick that
   * completes its period since a FISU or MSU was heard, or since the first MSU became
   * outstanding, when MSUs are outstanding; T6 goes first.
   */
  lemma ServiceDeadlines(config: LinkConfig, ops: seq<LinkOp>, op: LinkOp)
    ensures var w, s := NoteRun(config, ops), LinkRun(config, ops).link;
            var t6 := w.peerBusy && Ends(op, w.hush, config.t6RemoteCongestion);
            && (Raises(config, ops, op, Event.OutOfService(T6Expired)) <==> Serves(s.state) && t6)
            && (Raises(config, ops, op, Event.OutOfService(T7Expired))
                <==> Serves(s.state) && !t6 && s.tx.unacked != [] && Ends(op, w.quiet, config.t7ExcessiveDelay))
  {
    RaisesIff(config, ops, op, Event.OutOfService(T6Expired));
    RaisesIff(config, ops, op, Event.OutOfService(T7Expired));
    RunMatches(config, ops);
    ServiceTimersExpected(NoteRun(config, ops), op);
  }

  /** So nothing outlasts its period: no state before service, no congestion, no silence. */
  lemma NothingOutlastsItsPeriod(config: LinkConfig, ops: seq<LinkOp>)
    ensures var w, s := NoteRun(config, ops), LinkRun(config, ops).link;
            && (s.state.NotAligned? ==> w.age < AtLeastOne(config.t2NotAligned))
            && (s.state.Aligned? ==> w.age < AtLeastOne(config.t3Aligned))
            && (s.state.AlignedReady? ==> w.age < AtLeastOne(config.t1AlignedReady))
            && (Serves(s.state) && w.peerBusy ==> w.hush < AtLeastOne(config.t6RemoteCongestion))
            && (Serves(s.state) && s.tx.unacked != [] ==> w.quiet < AtLeastOne(config.t7ExcessiveDelay))
  {
    RunMatches(config, ops);
  }
}
