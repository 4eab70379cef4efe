/** What every reachable state of a link satisfies, whatever it is fed. */
module LinkInvariants {
  import opened Basics
  import opened Retransmission
  import opened Monitor
  import opened SignalUnits
  import opened LinkControl

  /** A link and the events already taken from its queue. */
  datatype Trace = Trace(link: LinkState, drained: seq<Event>) {
    /** Every event raised since the link was created. */
    function Log(): seq<Event> {
      drained + link.events
    }
  }

  function TraceStep(t: Trace, op: LinkOp): Trace {
    Trace(Step(t.link, op),
          if op.PollEventOp? && t.link.events != [] then t.drained + [t.link.events[0]] else t.drained)
  }

  function LinkRun(config: LinkConfig, ops: seq<LinkOp>): Trace {
    if ops == [] then Trace(NewLink(config), [])
    else TraceStep(LinkRun(config, ops[..|ops| - 1]), ops[|ops| - 1])
  }

  /** Most operations leave both error-correction controllers alone. */
  lemma ControllersStay(s: LinkState, op: LinkOp)
    requires !op.StartOp? && !op.SubmitOp? && !op.TransmitOp? && !op.ReceiveOp?
    ensures SameControllers(s, Step(s, op))
  {
  }

  // ---- Timers, outages and the in-service monitor ----

  /** Each timer runs exactly in the state, or under the condition, it guards. */
  ghost predicate TimersMatch(s: LinkState) {
    && (s.timers.t2.Some? <==> s.state.NotAligned?)
    && (s.timers.t3.Some? <==> s.state.Aligned?)
    && (s.timers.t4.Some? <==> s.state.Proving?)
    && (s.timers.t1.Some? <==> s.state.AlignedReady?)
    && (s.timers.t6.Some? <==> s.Serving() && s.remoteBusy)
    && (s.timers.t7.Some? <==> s.Serving() && s.tx.unacked != [])
  }

  /** Nothing is outstanding and the peer's conditions are clear before service. */
  ghost predicate CleanBeforeService(s: LinkState) {
    !s.Serving() && !s.state.OutOfService? ==>
      s.tx.unacked == [] && !s.remoteBusy && !s.remoteOutage
  }

  ghost predicate OutageMatch(s: LinkState) {
    && (s.state.AlignedReady? || s.state.InService? ==> !s.localOutage)
    && (s.state.AlignedNotReady? || s.state.ProcessorOutage? ==> s.localOutage)
  }

  /** In service the monitor has not failed, so only an errored unit can fail the link. */
  ghost predicate MonitorQuiet(s: LinkState) {
    && SuermOk(s.suerm)
    && s.suerm.threshold == s.config.suermThreshold
    && (s.Serving() && s.config.suermThreshold >= 1 ==>
          !s.suerm.failed && s.suerm.count < s.suerm.threshold)
  }

  ghost predicate LinkOk(s: LinkState) {
    TimersMatch(s) && CleanBeforeService(s) && OutageMatch(s) && MonitorQuiet(s)
  }

  /** The next state is fine and has the same configuration. */
  ghost predicate Keeps(s: LinkState, s': LinkState) {
    LinkOk(s') && s'.config == s.config
  }

  lemma FailuresKeep(s: LinkState, failure: AlignmentFailure, reason: OutOfServiceReason)
    requires SuermOk(s.suerm) && s.suerm.threshold == s.config.suermThreshold
    ensures Keeps(s, FailAlignment(s, failure)) && Keeps(s, FailOutOfService(s, reason))
  {
  }

  lemma AckKeeps(s: LinkState, header: SuHeader)
    requires LinkOk(s) && s.Serving()
    ensures Keeps(s, ApplyAck(s, header)) && ApplyAck(s, header).Serving()
  {
  }

  lemma ClearKeeps(s: LinkState)
    requires LinkOk(s) && s.Serving()
    ensures Keeps(s, ClearRemote(s)) && ClearRemote(s).Serving()
  {
  }

  lemma CheckKeeps(s: LinkState, fsn: octet, m: Msu)
    requires LinkOk(s) && s.Serving()
    ensures Keeps(s, CheckMsu(s, fsn, m))
  {
  }

  lemma ProcessKeeps(s: LinkState, su: SignalUnit)
    requires LinkOk(s) && s.Serving()
    ensures Keeps(s, ProcessInService(s, su))
  {
    var acked := ApplyAck(s, su.header);
    AckKeeps(s, su.header);
    ClearKeeps(acked);
    if su.MsuUnit? {
      CheckKeeps(ClearRemote(acked), su.header.fsn, su.msu);
    }
  }

  lemma EnterProvingKeeps(s: LinkState)
    requires LinkOk(s.(timers := s.timers.(t4 := Some(0)), state := Mtp2State.Proving))
    ensures Keeps(s, EnterProving(s))
  {
  }

  lemma EnterInServiceKeeps(s: LinkState)
    requires LinkOk(s) && s.state.AlignedReady?
    ensures Keeps(s, EnterInService(s))
  {
  }

  lemma NotAlignedLssuKeeps(s: LinkState, status: Status)
    requires LinkOk(s) && s.state.NotAligned?
    ensures Keeps(s, NotAlignedLssu(s, status))
  {
  }

  lemma AlignedLssuKeeps(s: LinkState, status: Status)
    requires LinkOk(s) && s.state.Aligned?
    ensures Keeps(s, AlignedLssu(s, status))
  {
    FailuresKeep(s, AlignmentFailure.ReceivedSios, Stopped);
    EnterProvingKeeps(s.(timers := s.timers.(t3 := None)));
  }

  lemma ProvingLssuKeeps(s: LinkState, status: Status)
    requires LinkOk(s) && s.state.Proving?
    ensures Keeps(s, ProvingLssu(s, status))
  {
    FailuresKeep(s, AlignmentFailure.ReceivedSios, Stopped);
    EnterProvingKeeps(s);
  }

  lemma ReadyLssuKeeps(s: LinkState, status: Status)
    requires LinkOk(s) && (s.state.AlignedReady? || s.state.AlignedNotReady?)
    ensures Keeps(s, ReadyLssu(s, status))
  {
    FailuresKeep(s, AlignmentFailure.ReceivedSios, Stopped);
    if s.state.AlignedReady? {
      EnterInServiceKeeps(s);
    }
  }

  lemma CongestedKeeps(s: LinkState)
    requires LinkOk(s) && s.Serving()
    ensures Keeps(s, Congested(s))
  {
  }

  lemma ServingLssuKeeps(s: LinkState, status: Status)
    requires LinkOk(s) && s.Serving()
    ensures Keeps(s, ServingLssu(s, status))
  {
    match status
    case ProcessorOutage =>
      assert ServingLssu(s, status) == s
          || ServingLssu(s, status) == Emit(s.(remoteOutage := true), RemoteProcessorOutage);
    case Busy => CongestedKeeps(s);
    case OutOfService => FailuresKeep(s, AermTripped, OutOfServiceReason.ReceivedSios);
    case _ => FailuresKeep(s, AermTripped, AlignmentLost);
  }

  lemma LssuKeeps(s: LinkState, status: Status)
    requires LinkOk(s)
    ensures Keeps(s, ReceiveLssu(s, status))
  {
    match s.state
    case OutOfService =>
    case NotAligned => NotAlignedLssuKeeps(Upgraded(s, status), status);
    case Aligned => AlignedLssuKeeps(Upgraded(s, status), status);
    case Proving => ProvingLssuKeeps(Upgraded(s, status), status);
    case AlignedReady => ReadyLssuKeeps(s, status);
    case AlignedNotReady => ReadyLssuKeeps(s, status);
    case InService => ServingLssuKeeps(s, status);
    case ProcessorOutage => ServingLssuKeeps(s, status);
  }

  lemma ReceiveKeeps(s: LinkState, su: SignalUnit)
    requires LinkOk(s)
    ensures Keeps(s, Receive(s, su))
  {
    var s1 := if s.Serving() then s.(suerm := RecordSu(s.suerm, false)) else s;
    if s1.Serving() && s1.suerm.failed {
      FailuresKeep(s1, AermTripped, SuermFailure);
    } else if su.Lssu? {
      LssuKeeps(s1, su.status);
    } else if s1.state.AlignedReady? {
      EnterInServiceKeeps(s1);
      ProcessKeeps(EnterInService(s1), su);
    } else if s1.Serving() {
      ProcessKeeps(s1, su);
    }
  }

  lemma ErrorInProvingKeeps(s: LinkState)
    requires LinkOk(s) && s.state.Proving?
    ensures Keeps(s, s.(aerm := AermError(s.aerm))) && Keeps(s, BackToAligned(s.(aerm := AermError(s.aerm))))
  {
  }

  lemma ErrorInServiceKeeps(s: LinkState)
    requires LinkOk(s) && s.Serving()
    ensures Keeps(s, ReceiveCorrupted(s))
  {
    var s' := s.(suerm := RecordSu(s.suerm, true));
    FailuresKeep(s', AermTripped, SuermFailure);
    assert !s'.suerm.failed ==> Keeps(s, s');
  }

  lemma CorruptedKeeps(s: LinkState)
    requires LinkOk(s)
    ensures Keeps(s, ReceiveCorrupted(s))
  {
    if s.state.Proving? {
      ErrorInProvingKeeps(s);
      FailuresKeep(s.(aerm := AermError(s.aerm)), AermTripped, SuermFailure);
    } else if s.Serving() {
      ErrorInServiceKeeps(s);
    }
  }

  /** Only whether a timer runs matters, not how long it has left. */
  ghost predicate SameRunning(a: Timers, b: Timers) {
    && a.t1.Some? == b.t1.Some? && a.t2.Some? == b.t2.Some? && a.t3.Some? == b.t3.Some?
    && a.t4.Some? == b.t4.Some? && a.t6.Some? == b.t6.Some? && a.t7.Some? == b.t7.Some?
  }

  lemma RunningTimersKeep(s: LinkState, timers: Timers)
    requires LinkOk(s) && SameRunning(timers, s.timers)
    ensures Keeps(s, s.(timers := timers))
  {
  }

  lemma TickHearingKeeps(s: LinkState)
    requires LinkOk(s)
    ensures Keeps(s, TickHearing(s).0)
  {
    var (t2, expired2) := StepTimer(s.timers.t2);
    var (t3, expired3) := StepTimer(s.timers.t3);
    if expired2 {
      FailuresKeep(s.(timers := s.timers.(t2 := t2)), T2Expired, T6Expired);
    } else if expired3 {
      FailuresKeep(s.(timers := s.timers.(t2 := t2, t3 := t3)), T3Expired, T6Expired);
    } else {
      RunningTimersKeep(s, s.timers.(t2 := t2, t3 := t3));
    }
  }

  lemma ProvingSucceededKeeps(s: LinkState)
    requires LinkOk(s.(timers := s.timers.(t4 := Some(0)))) && s.state.Proving?
    ensures Keeps(s, ProvingSucceeded(s))
  {
  }

  lemma TickProvingKeeps(s: LinkState)
    requires LinkOk(s)
    ensures Keeps(s, TickProving(s).0)
  {
    var (t4, expired4) := StepTimer(s.timers.t4);
    var (t1, expired1) := StepTimer(s.timers.t1);
    if expired4 {
      RunningTimersKeep(s, s.timers.(t4 := Some(0)));
      ProvingSucceededKeeps(s.(timers := s.timers.(t4 := t4)));
    } else if expired1 {
      FailuresKeep(s.(timers := s.timers.(t4 := t4, t1 := t1)), T1Expired, T6Expired);
    } else {
      RunningTimersKeep(s, s.timers.(t4 := t4, t1 := t1));
    }
  }

  lemma TickServiceKeeps(s: LinkState)
    requires LinkOk(s)
    ensures Keeps(s, TickService(s))
  {
    var (t6, expired6) := StepTimer(s.timers.t6);
    var (t7, expired7) := StepTimer(s.timers.t7);
    if expired6 {
      FailuresKeep(s.(timers := s.timers.(t6 := t6)), T1Expired, T6Expired);
    } else if expired7 {
      FailuresKeep(s.(timers := s.timers.(t6 := t6, t7 := t7)), T1Expired, T7Expired);
    } else {
      RunningTimersKeep(s, s.timers.(t6 := t6, t7 := t7));
    }
  }

  lemma TickKeeps(s: LinkState)
    requires LinkOk(s)
    ensures Keeps(s, Tick(s))
  {
    var (s1, heard) := TickHearing(s);
    TickHearingKeeps(s);
    if !heard {
      var (s2, proved) := TickProving(s1);
      TickProvingKeeps(s1);
      if !proved {
        TickServiceKeeps(s2);
      }
    }
  }

  lemma PollOnlyGrows(tx: TxState)
    ensures |PollTx(tx).0.unacked| >= |tx.unacked|
  {
  }

  lemma TransmitKeeps(s: LinkState)
    requires LinkOk(s)
    ensures Keeps(s, Transmit(s).0)
  {
    if Polls(s) {
      PollOnlyGrows(s.tx);
    }
  }

  lemma AwaitingKeeps(s: LinkState)
    requires SuermOk(s.suerm) && s.suerm.threshold == s.config.suermThreshold
    requires s.tx.unacked == [] && !s.remoteBusy && !s.remoteOutage
    ensures Keeps(s, Awaiting(s))
  {
  }

  lemma StartKeeps(s: LinkState)
    requires LinkOk(s)
    ensures Keeps(s, Start(s))
  {
    if s.state.OutOfService? {
      AwaitingKeeps(RenewControllers(ResetFlags(s)));
    }
  }

  lemma StopKeeps(s: LinkState)
    requires LinkOk(s)
    ensures Keeps(s, Stop(s))
  {
  }

  lemma OutageKeeps(s: LinkState)
    requires LinkOk(s)
    ensures Keeps(s, LocalOutage(s))
  {
    match s.state
    case InService => assert LocalOutage(s) == s.(localOutage := true, state := Mtp2State.ProcessorOutage);
    case AlignedReady => assert LocalOutage(s).state.AlignedNotReady?;
    case _ => assert LocalOutage(s) == s.(localOutage := true);
  }

  lemma RecoveryKeeps(s: LinkState)
    requires LinkOk(s)
    ensures Keeps(s, LocalRecovery(s))
  {
    match s.state
    case ProcessorOutage => assert LocalRecovery(s) == s.(localOutage := false, state := Mtp2State.InService);
    case AlignedNotReady => assert LocalRecovery(s).state.AlignedReady?;
    case _ => assert LocalRecovery(s) == s.(localOutage := false);
  }

  lemma NewLinkOk(config: LinkConfig)
    ensures LinkOk(NewLink(config))
  {
  }

  lemma EventsKeep(s: LinkState, events: seq<Event>)
    requires LinkOk(s)
    ensures Keeps(s, s.(events := events))
  {
  }

  lemma PollEventKeeps(s: LinkState)
    requires LinkOk(s)
    ensures Keeps(s, Step(s, PollEventOp))
  {
    EventsKeep(s, s.events);
    if s.events != [] {
      EventsKeep(s, s.events[1..]);
    }
  }

  /** What the invariants do not speak of may change. */
  lemma QuietKeeps(s: LinkState, s': LinkState)
    requires LinkOk(s)
    requires s' == s.(emergency := s'.emergency, localBusy := s'.localBusy, events := s'.events)
    ensures Keeps(s, s')
  {
  }

  lemma SubmissionKeeps(s: LinkState, m: Msu)
    requires LinkOk(s)
    ensures Keeps(s, Submission(s, m).0)
  {
  }

  lemma StepKeeps(s: LinkState, op: LinkOp)
    requires LinkOk(s)
    ensures Keeps(s, Step(s, op))
  {
    match op
    case TransmitOp => TransmitKeeps(s);
    case ReceiveOp(su) => ReceiveKeeps(s, su);
    case CorruptedOp => CorruptedKeeps(s);
    case TickOp => TickKeeps(s);
    case StartOp => StartKeeps(s);
    case StopOp => StopKeeps(s);
    case LocalOutageOp => OutageKeeps(s);
    case LocalRecoveryOp => RecoveryKeeps(s);
    case SetEmergencyOp(e) => QuietKeeps(s, s.(emergency := e));
    case LocalBusyOp(busy) => QuietKeeps(s, s.(localBusy := busy));
    case SubmitOp(m) => SubmissionKeeps(s, m);
    case PollEventOp => PollEventKeeps(s);
  }

  lemma {:induction false} LinkInvariant(config: LinkConfig, ops: seq<LinkOp>)
    ensures LinkOk(LinkRun(config, ops).link)
    ensures LinkRun(config, ops).link.config == config
  {
    if ops != [] {
      LinkInvariant(config, ops[..|ops| - 1]);
      StepKeeps(LinkRun(config, ops[..|ops| - 1]).link, ops[|ops| - 1]);
    }
  }

  /** In every reachable state each timer runs iff its condition holds. */
  lemma TimersMatchState(config: LinkConfig, ops: seq<LinkOp>)
    ensures TimersMatch(LinkRun(config, ops).link)
  {
    LinkInvariant(config, ops);
  }

  /** Hence every timer that expires finds the state it guards. */
  lemma ExpiriesFindTheirState(config: LinkConfig, ops: seq<LinkOp>)
    ensures var s := LinkRun(config, ops).link;
            && (StepTimer(s.timers.t2).1 ==> s.state.NotAligned?)
            && (StepTimer(s.timers.t3).1 ==> s.state.Aligned?)
            && (StepTimer(s.timers.t4).1 ==> s.state.Proving?)
            && (StepTimer(s.timers.t1).1 ==> s.state.AlignedReady?)
            && (StepTimer(s.timers.t6).1 ==> s.Serving())
            && (StepTimer(s.timers.t7).1 ==> s.Serving())
  {
    LinkInvariant(config, ops);
  }

  /** Local outage and link state agree in every reachable state. */
  lemma OutageMatchesState(config: LinkConfig, ops: seq<LinkOp>)
    ensures OutageMatch(LinkRun(config, ops).link)
  {
    LinkInvariant(config, ops);
  }

  /** With T at least one, a unit received correctly never takes a link out for its error rate. */
  lemma GoodUnitNeverTripsSuerm(config: LinkConfig, ops: seq<LinkOp>, su: SignalUnit)
    requires config.suermThreshold >= 1
    ensures var s := LinkRun(config, ops).link;
            s.Serving() ==>
              && !s.suerm.failed && s.suerm.count < config.suermThreshold
              && !RecordSu(s.suerm, false).failed
  {
    LinkInvariant(config, ops);
  }
}
