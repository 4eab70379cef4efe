/**
 * The observer is right in every run: each operation raises the events and leads to the state
 * that the notes say. So deadlines are kept, monitors judge the units heard, and the peer's
 * conditions are what its units told.
 */
module ObservedLink {
  import opened Basics
  import opened Sequence
  import opened Retransmission
  import opened TransmitBuffer
  import opened Monitor
  import opened LeakyBucket
  import opened SignalUnits
  import opened LinkControl
  import opened LinkInvariants
  import opened ProvingPeriod
  import opened Observer

  // ---- How the notes match the link ----

  ghost predicate FlagNotes(w: Notes) {
    var s := w.trace.link;
    && s.active == w.started && s.emergency == w.urgent
    && s.localOutage == w.outage && s.localBusy == w.congested
  }

  ghost predicate ServiceNotes(w: Notes) {
    var s := w.trace.link;
    && s.suerm.threshold == s.config.suermThreshold && s.suerm.interval == s.config.suermInterval
    && if s.Serving() then
      && s.remoteBusy == w.peerBusy && s.remoteOutage == w.peerOutage
      && s.suerm == Records(NewSuerm(s.config.suermThreshold, s.config.suermInterval), w.history)
      && !s.suerm.failed
    else
      !w.peerBusy && !w.peerOutage && w.history == []
  }

  /** A timer counts down what the observer counts up. */
  predicate Running(t: Timer, period: u32, elapsed: nat) {
    elapsed < AtLeastOne(period) && t == Some(period - elapsed)
  }

  ghost predicate TimerNotes(w: Notes) {
    var s, c := w.trace.link, w.trace.link.config;
    && (s.state.NotAligned? ==> Running(s.timers.t2, c.t2NotAligned, w.age))
    && (s.state.Aligned? ==> Running(s.timers.t3, c.t3Aligned, w.age))
    && (s.state.AlignedReady? ==> Running(s.timers.t1, c.t1AlignedReady, w.age))
    && (s.Serving() && s.remoteBusy ==> Running(s.timers.t6, c.t6RemoteCongestion, w.hush))
    && (s.Serving() && s.tx.unacked != [] ==> Running(s.timers.t7, c.t7ExcessiveDelay, w.quiet))
  }

  ghost predicate ProvingNotes(w: Notes) {
    && w.proving.link == w.trace.link && Watched(w.proving)
    && w.trace.link.provingAttempt == w.proving.entries % 0x1_0000_0000
  }

  /** Numbers heard may exceed seven bits; only their remainders count. */
  ghost predicate ControllerNotes(w: Notes) {
    var s := w.trace.link;
    && s.tx.scheme == s.rx.scheme == s.config.scheme
    && (s.rx.lastReceived - (w.reported + 127)) % 128 == 0
    && Balanced(s.tx, w.queued, 0)
    && (forall i :: 0 <= i < |w.queued| ==> w.queued[i].Octets() <= MAX_MSU_BODY)
  }

  ghost predicate OwnNotes(w: Notes) {
    FlagNotes(w) && ServiceNotes(w) && TimerNotes(w)
  }

  ghost predicate Matches(w: Notes) {
    LinkOk(w.trace.link) && OwnNotes(w) && ProvingNotes(w) && ControllerNotes(w)
  }

  /** What an operation that leads to s' must do, apart from proving and the controllers. */
  ghost predicate Noted(w: Notes, op: LinkOp, s': LinkState) {
    var w' := NoteNext(w, op, Trace(s', []), 0, w.proving);
    && s'.config == w.trace.link.config
    && s'.events == w.trace.link.events + Expected(w, op) && s'.state == Leads(w, op)
    && OwnNotes(w')
  }

  lemma RecordsOneMore(m: SuermState, history: seq<bool>, inError: bool)
    ensures Records(m, history + [inError]) == RecordSu(Records(m, history), inError)
  {
    assert (history + [inError])[..|history|] == history;
  }

  /** The monitor fails on the unit with which some window exceeds its leaks. */
  lemma MonitorJudges(w: Notes, inError: bool)
    requires Matches(w) && Serves(w.trace.link.state)
    ensures var s := w.trace.link;
            var m := RecordSu(s.suerm, inError);
            && (m.failed <==> TooManyErrors(w, inError))
            && m == Records(NewSuerm(s.config.suermThreshold, s.config.suermInterval), w.history + [inError])
  {
    var c := w.trace.link.config;
    RecordsOneMore(NewSuerm(c.suermThreshold, c.suermInterval), w.history, inError);
    SuermClosedForm(c.suermThreshold, c.suermInterval, w.history + [inError]);
  }

  // ---- Time ----

  lemma TickNotAligned(s: LinkState)
    requires LinkOk(s) && s.state.NotAligned?
    ensures Tick(s) == if s.timers.t2.value <= 1 then FailAlignment(s, T2Expired)
                       else s.(timers := s.timers.(t2 := Some(s.timers.t2.value - 1)))
  {
    var s1 := TickHearing(s).0;
    if s.timers.t2.value > 1 {
      assert TickProving(s1) == (s1, false) && TickService(s1) == s1;
    }
  }

  lemma TickAligned(s: LinkState)
    requires LinkOk(s) && s.state.Aligned?
    ensures Tick(s) == if s.timers.t3.value <= 1 then FailAlignment(s, T3Expired)
                       else s.(timers := s.timers.(t3 := Some(s.timers.t3.value - 1)))
  {
    var s1 := TickHearing(s).0;
    if s.timers.t3.value > 1 {
      assert TickProving(s1) == (s1, false) && TickService(s1) == s1;
    }
  }

  lemma TickInProving(s: LinkState)
    requires LinkOk(s) && s.state.Proving?
    ensures Tick(s) == if s.timers.t4.value <= 1 then ProvingSucceeded(s)
                       else s.(timers := s.timers.(t4 := Some(s.timers.t4.value - 1)))
  {
    assert TickHearing(s) == (s, false);
    var s1 := TickProving(s).0;
    if s.timers.t4.value > 1 {
      assert TickService(s1) == s1;
    }
  }

  lemma TickReady(s: LinkState)
    requires LinkOk(s) && s.state.AlignedReady?
    ensures Tick(s) == if s.timers.t1.value <= 1 then FailAlignment(s, T1Expired)
                       else s.(timers := s.timers.(t1 := Some(s.timers.t1.value - 1)))
  {
    assert TickHearing(s) == (s, false);
    var s1 := TickProving(s).0;
    if s.timers.t1.value > 1 {
      assert TickService(s1) == s1;
    }
  }

  predicate Expires(t: Timer) {
    t.Some? && t.value <= 1
  }

  lemma FailureStopsTimers(s: LinkState, timers: Timers, reason: OutOfServiceReason)
    ensures FailOutOfService(s.(timers := timers), reason) == FailOutOfService(s, reason)
  {
  }

  /** A timer of service that expires takes the link out, T6 before T7. */
  lemma ServiceExpires(s: LinkState)
    requires s.Serving() && (Expires(s.timers.t6) || Expires(s.timers.t7))
    ensures TickService(s) == FailOutOfService(s, if Expires(s.timers.t6) then T6Expired else T7Expired)
  {
    var timers6 := s.timers.(t6 := StepTimer(s.timers.t6).0);
    if Expires(s.timers.t6) {
      FailureStopsTimers(s, timers6, T6Expired);
    } else {
      FailureStopsTimers(s, timers6.(t7 := StepTimer(s.timers.t7).0), T7Expired);
    }
  }

  lemma ServiceTicks(s: LinkState)
    requires s.Serving() && !Expires(s.timers.t6) && !Expires(s.timers.t7)
    ensures TickService(s)
         == s.(timers := s.timers.(t6 := StepTimer(s.timers.t6).0, t7 := StepTimer(s.timers.t7).0))
  {
  }

  /** Before service no timer of service runs, and in service no other. */
  lemma OnlyServiceTicks(s: LinkState)
    requires LinkOk(s) && s.Serving()
    ensures Tick(s) == TickService(s)
  {
    assert TickHearing(s) == (s, false);
    assert TickProving(s) == (s, false);
  }

  lemma TickIdle(s: LinkState)
    requires LinkOk(s) && (s.state.OutOfService? || s.state.AlignedNotReady?)
    ensures Tick(s) == s
  {
    assert TickHearing(s) == (s, false) && TickProving(s) == (s, false);
  }

  /** Operations that ask nothing of the link. */
  predicate Neutral(op: LinkOp) {
    op.TickOp? || op.CorruptedOp? || (op.ReceiveOp? && !HearsStatus(op, EmergencyAlignment))
  }

  lemma FailureNoted(w: Notes, op: LinkOp, failure: AlignmentFailure)
    requires Matches(w) && !Serves(w.trace.link.state) && Neutral(op)
    requires Expected(w, op) == [AlignmentFailed(failure)] && Leads(w, op).OutOfService?
    ensures Noted(w, op, FailAlignment(w.trace.link, failure))
  {
  }

  /** A link out of service for a reason, whatever the monitor came to. */
  lemma OutNoted(w: Notes, op: LinkOp, s: LinkState, reason: OutOfServiceReason)
    requires Matches(w) && Serves(w.trace.link.state) && (op.TickOp? || op.CorruptedOp? || op.ReceiveOp?)
    requires s == w.trace.link.(suerm := s.suerm)
    requires s.suerm.threshold == s.config.suermThreshold && s.suerm.interval == s.config.suermInterval
    requires Expected(w, op) == [Event.OutOfService(reason)] && Leads(w, op).OutOfService?
    ensures Noted(w, op, FailOutOfService(s, reason))
  {
  }

  lemma NotAlignedTicks(w: Notes, s': LinkState)
    requires Matches(w) && w.trace.link.state.NotAligned? && w.trace.link.timers.t2.value > 1
    requires s' == w.trace.link.(timers := w.trace.link.timers.(t2 := Some(w.trace.link.timers.t2.value - 1)))
    ensures Noted(w, TickOp, s')
  {
  }

  lemma AlignedTicks(w: Notes, s': LinkState)
    requires Matches(w) && w.trace.link.state.Aligned? && w.trace.link.timers.t3.value > 1
    requires s' == w.trace.link.(timers := w.trace.link.timers.(t3 := Some(w.trace.link.timers.t3.value - 1)))
    ensures Noted(w, TickOp, s')
  {
  }

  lemma ReadyTicks(w: Notes, s': LinkState)
    requires Matches(w) && w.trace.link.state.AlignedReady? && w.trace.link.timers.t1.value > 1
    requires s' == w.trace.link.(timers := w.trace.link.timers.(t1 := Some(w.trace.link.timers.t1.value - 1)))
    ensures Noted(w, TickOp, s')
  {
  }

  lemma ProvingTicks(w: Notes, s': LinkState)
    requires Matches(w) && w.trace.link.state.Proving?
    requires var s := w.trace.link;
             s' == if s.timers.t4.value <= 1 then ProvingSucceeded(s)
                   else s.(timers := s.timers.(t4 := Some(s.timers.t4.value - 1)))
    ensures Noted(w, TickOp, s')
  {
  }

  lemma ServingTicks(w: Notes, s': LinkState)
    requires Matches(w) && Serves(w.trace.link.state)
    requires !Expires(w.trace.link.timers.t6) && !Expires(w.trace.link.timers.t7)
    requires var s := w.trace.link;
             s' == s.(timers := s.timers.(t6 := StepTimer(s.timers.t6).0, t7 := StepTimer(s.timers.t7).0))
    ensures Noted(w, TickOp, s')
  {
  }

  lemma IdleTicks(w: Notes)
    requires Matches(w) && (w.trace.link.state.OutOfService? || w.trace.link.state.AlignedNotReady?)
    ensures Noted(w, TickOp, w.trace.link)
  {
  }

  lemma AligningTickNoted(w: Notes)
    requires Matches(w) && (w.trace.link.state.NotAligned? || w.trace.link.state.Aligned? || w.trace.link.state.AlignedReady?)
    ensures Noted(w, TickOp, Tick(w.trace.link))
  {
    var s := w.trace.link;
    if s.state.NotAligned? {
      TickNotAligned(s);
      if s.timers.t2.value <= 1 { FailureNoted(w, TickOp, T2Expired); } else { NotAlignedTicks(w, Tick(s)); }
    } else if s.state.Aligned? {
      TickAligned(s);
      if s.timers.t3.value <= 1 { FailureNoted(w, TickOp, T3Expired); } else { AlignedTicks(w, Tick(s)); }
    } else {
      TickReady(s);
      if s.timers.t1.value <= 1 { FailureNoted(w, TickOp, T1Expired); } else { ReadyTicks(w, Tick(s)); }
    }
  }

  lemma ExpiryNoted(w: Notes, reason: OutOfServiceReason)
    requires Matches(w) && Serves(w.trace.link.state)
    requires Expires(w.trace.link.timers.t6) || Expires(w.trace.link.timers.t7)
    requires reason == if Expires(w.trace.link.timers.t6) then T6Expired else T7Expired
    ensures Noted(w, TickOp, FailOutOfService(w.trace.link, reason))
  {
    OutNoted(w, TickOp, w.trace.link, reason);
  }

  lemma ServingTickNoted(w: Notes)
    requires Matches(w) && Serves(w.trace.link.state)
    ensures Noted(w, TickOp, Tick(w.trace.link))
  {
    var s := w.trace.link;
    OnlyServiceTicks(s);
    if Expires(s.timers.t6) || Expires(s.timers.t7) {
      ServiceExpires(s);
      ExpiryNoted(w, if Expires(s.timers.t6) then T6Expired else T7Expired);
    } else {
      ServiceTicks(s);
      ServingTicks(w, Tick(s));
    }
  }

  lemma TickNoted(w: Notes)
    requires Matches(w)
    ensures Noted(w, TickOp, Tick(w.trace.link))
  {
    var s := w.trace.link;
    if Serves(s.state) {
      ServingTickNoted(w);
    } else if s.state.Proving? {
      TickInProving(s);
      ProvingTicks(w, Tick(s));
    } else if s.state.OutOfService? || s.state.AlignedNotReady? {
      TickIdle(s);
      IdleTicks(w);
    } else {
      AligningTickNoted(w);
    }
  }

  // ---- Units heard before service ----

  lemma UnmovedNoted(w: Notes, su: SignalUnit)
    requires Matches(w) && !Serves(w.trace.link.state)
    requires Expected(w, ReceiveOp(su)) == [] && Leads(w, ReceiveOp(su)) == w.trace.link.state
    requires !(HearsStatus(ReceiveOp(su), EmergencyAlignment) && Aligns(w.trace.link.state))
    ensures Noted(w, ReceiveOp(su), w.trace.link)
  {
  }

  lemma AlignedNoted(w: Notes, su: SignalUnit, urgent: bool)
    requires Matches(w) && w.trace.link.state.NotAligned? && su.Lssu?
    requires su.status.OutOfAlignment? || su.status.NormalAlignment? || su.status.EmergencyAlignment?
    requires urgent == (w.urgent || su.status.EmergencyAlignment?)
    ensures var s := w.trace.link;
            var timers' := s.timers.(t2 := None, t3 := Some(s.config.t3Aligned));
            Noted(w, ReceiveOp(su), s.(emergency := urgent, state := Aligned, timers := timers'))
  {
  }

  lemma NotAlignedHears(w: Notes, su: SignalUnit)
    requires Matches(w) && w.trace.link.state.NotAligned?
    ensures Noted(w, ReceiveOp(su), Receive(w.trace.link, su))
  {
    var s := w.trace.link;
    if su.Lssu? && (su.status.OutOfAlignment? || su.status.NormalAlignment? || su.status.EmergencyAlignment?) {
      var s1 := Upgraded(s, su.status);
      assert Receive(s, su) == s1.(timers := s.timers.(t2 := None, t3 := Some(s.config.t3Aligned)), state := Aligned);
      AlignedNoted(w, su, s1.emergency);
    } else {
      assert Receive(s, su) == s;
      UnmovedNoted(w, su);
    }
  }

  /** Entering proving, from Aligned or again from Proving. */
  lemma ProvingNoted(w: Notes, su: SignalUnit, s: LinkState)
    requires Matches(w) && EntersProving(w.trace.link, ReceiveOp(su))
    requires s == w.trace.link.(emergency := w.urgent || su.status.EmergencyAlignment?, timers := s.timers)
    ensures Noted(w, ReceiveOp(su), EnterProving(s))
  {
  }

  lemma AlignedHears(w: Notes, su: SignalUnit)
    requires Matches(w) && w.trace.link.state.Aligned?
    ensures Noted(w, ReceiveOp(su), Receive(w.trace.link, su))
  {
    var s := w.trace.link;
    if su.Lssu? && (su.status.NormalAlignment? || su.status.EmergencyAlignment?) {
      var s1 := Upgraded(s, su.status);
      assert Receive(s, su) == EnterProving(s1.(timers := s.timers.(t3 := None)));
      ProvingNoted(w, su, s1.(timers := s.timers.(t3 := None)));
    } else if su.Lssu? && su.status.OutOfService? {
      assert Receive(s, su) == FailAlignment(s, AlignmentFailure.ReceivedSios);
      FailureNoted(w, ReceiveOp(su), AlignmentFailure.ReceivedSios);
    } else {
      assert Receive(s, su) == s;
      UnmovedNoted(w, su);
    }
  }

  lemma BackNoted(w: Notes, op: LinkOp, s: LinkState)
    requires Matches(w) && w.trace.link.state.Proving? && Neutral(op)
    requires s == w.trace.link.(aerm := s.aerm)
    requires Expected(w, op) == [] && Leads(w, op).Aligned?
    ensures Noted(w, op, BackToAligned(s))
  {
  }

  lemma ProvingHears(w: Notes, su: SignalUnit)
    requires Matches(w) && w.trace.link.state.Proving?
    ensures Noted(w, ReceiveOp(su), Receive(w.trace.link, su))
  {
    var s := w.trace.link;
    if su.Lssu? && su.status.EmergencyAlignment? {
      assert Receive(s, su) == EnterProving(Upgraded(s, su.status));
      ProvingNoted(w, su, Upgraded(s, su.status));
    } else if su.Lssu? && su.status.OutOfAlignment? {
      assert Receive(s, su) == BackToAligned(s);
      BackNoted(w, ReceiveOp(su), s);
    } else if su.Lssu? && su.status.OutOfService? {
      assert Receive(s, su) == FailAlignment(s, AlignmentFailure.ReceivedSios);
      FailureNoted(w, ReceiveOp(su), AlignmentFailure.ReceivedSios);
    } else {
      assert Receive(s, su) == s;
      UnmovedNoted(w, su);
    }
  }

  lemma NotReadyHears(w: Notes, su: SignalUnit)
    requires Matches(w) && (w.trace.link.state.AlignedNotReady? || w.trace.link.state.OutOfService?)
    ensures Noted(w, ReceiveOp(su), Receive(w.trace.link, su))
  {
    var s := w.trace.link;
    if su.Lssu? && su.status.OutOfService? && s.state.AlignedNotReady? {
      assert Receive(s, su) == FailAlignment(s, AlignmentFailure.ReceivedSios);
      FailureNoted(w, ReceiveOp(su), AlignmentFailure.ReceivedSios);
    } else {
      assert Receive(s, su) == s;
      UnmovedNoted(w, su);
    }
  }

  // ---- Units heard in service, and the unit that begins it ----

  lemma AcksTo(s: LinkState, header: SuHeader)
    ensures var tx' := AckTx(s.tx, header.bsn, header.bib);
            var t7' := if tx'.unacked == [] then None else Some(s.config.t7ExcessiveDelay);
            ApplyAck(s, header) == s.(tx := tx', timers := s.timers.(t7 := t7'))
  {
  }

  function EndedConditions(s: LinkState): seq<Event> {
    (if s.remoteOutage then [RemoteProcessorRecovered] else [])
    + (if s.remoteBusy then [RemoteBusyEnded] else [])
  }

  lemma ClearsTo(s: LinkState)
    requires s.timers.t6.Some? <==> s.remoteBusy
    ensures ClearRemote(s)
         == s.(remoteOutage := false, remoteBusy := false, timers := s.timers.(t6 := None),
               events := s.events + EndedConditions(s))
  {
    assert s.timers.t6.None? ==> s.timers == s.timers.(t6 := None);
    assert s.events + [] == s.events;
    assert s.events + [RemoteProcessorRecovered] + [RemoteBusyEnded]
        == s.events + ([RemoteProcessorRecovered] + [RemoteBusyEnded]);
  }

  lemma ChecksTo(w: Notes, s: LinkState, fsn: octet, m: Msu)
    requires s.config == w.trace.link.config && s.rx == w.trace.link.rx && ControllerNotes(w) && s.Serving()
    ensures CheckMsu(s, fsn, m)
         == s.(rx := CheckMsu(s, fsn, m).rx,
               events := s.events + (if s.state.InService? then MsuEvents(w, fsn, m) else []))
  {
    var turns := (s.rx.lastReceived - (w.reported + 127)) / 128;
    assert fsn + 128 - s.rx.lastReceived == fsn - (w.reported + 127) + 128 * (1 - turns);
    ShiftByModulus(fsn - (w.reported + 127), 1 - turns);
    assert s.events + [] == s.events;
  }

  function ReportedMsu(w: Notes, s: LinkState, su: SignalUnit): seq<Event> {
    if su.MsuUnit? && s.state.InService? then MsuEvents(w, su.header.fsn, su.msu) else []
  }

  /** The whole effect of a FISU or MSU on a serving link, but for what its sequence check keeps. */
  predicate TookTraffic(w: Notes, s: LinkState, su: SignalUnit, s': LinkState) {
    s' == s.(tx := s'.tx, rx := s'.rx, remoteOutage := false, remoteBusy := false,
             timers := s.timers.(t6 := None,
                                 t7 := if s'.tx.unacked == [] then None else Some(s.config.t7ExcessiveDelay)),
             events := s.events + (EndedConditions(s) + ReportedMsu(w, s, su)))
  }

  lemma EventsJoin(x: seq<Event>, y: seq<Event>, z: seq<Event>)
    ensures (x + y) + z == x + (y + z) && x + (y + []) == x + y
  {
    assert y + [] == y;
  }

  lemma AcksAndClears(s: LinkState, header: SuHeader)
    requires s.timers.t6.Some? <==> s.remoteBusy
    ensures var tx' := AckTx(s.tx, header.bsn, header.bib);
            var t7' := if tx'.unacked == [] then None else Some(s.config.t7ExcessiveDelay);
            ClearRemote(ApplyAck(s, header))
            == s.(tx := tx', remoteOutage := false, remoteBusy := false,
                  timers := s.timers.(t6 := None, t7 := t7'), events := s.events + EndedConditions(s))
  {
    AcksTo(s, header);
    ClearsTo(ApplyAck(s, header));
  }

  lemma TrafficTakes(w: Notes, s: LinkState, su: SignalUnit)
    requires s.config == w.trace.link.config && s.rx == w.trace.link.rx && ControllerNotes(w) && s.Serving()
    requires s.timers.t6.Some? <==> s.remoteBusy
    ensures TookTraffic(w, s, su, ProcessInService(s, su))
  {
    var cleared := ClearRemote(ApplyAck(s, su.header));
    AcksAndClears(s, su.header);
    EventsJoin(s.events, EndedConditions(s), ReportedMsu(w, s, su));
    if su.MsuUnit? {
      ChecksTo(w, cleared, su.header.fsn, su.msu);
    }
  }

  /** The monitor has recorded the unit, and has not failed. */
  ghost predicate Recorded(w: Notes, inError: bool, m: SuermState) {
    var c := w.trace.link.config;
    && m == Records(NewSuerm(c.suermThreshold, c.suermInterval), w.history + [inError])
    && m.threshold == c.suermThreshold && m.interval == c.suermInterval && !m.failed
  }

  lemma TrafficNoted(w: Notes, su: SignalUnit, m: SuermState, s': LinkState)
    requires Matches(w) && Serves(w.trace.link.state) && !su.Lssu? && !TooManyErrors(w, false)
    requires Recorded(w, false, m) && TookTraffic(w, w.trace.link.(suerm := m), su, s')
    ensures Noted(w, ReceiveOp(su), s')
  {
  }

  /** The unit that begins service. */
  lemma EntryNoted(w: Notes, su: SignalUnit, s': LinkState)
    requires Matches(w) && w.trace.link.state.AlignedReady? && !su.Lssu?
    requires TookTraffic(w, EnterInService(w.trace.link), su, s')
    ensures Noted(w, ReceiveOp(su), s')
  {
  }

  lemma OutageEntryNoted(w: Notes, su: SignalUnit)
    requires Matches(w) && w.trace.link.state.AlignedReady? && su.Lssu? && su.status.ProcessorOutage?
    ensures Noted(w, ReceiveOp(su), Emit(EnterInService(w.trace.link).(remoteOutage := true), RemoteProcessorOutage))
  {
  }

  lemma ReadyHears(w: Notes, su: SignalUnit)
    requires Matches(w) && w.trace.link.state.AlignedReady?
    ensures Noted(w, ReceiveOp(su), Receive(w.trace.link, su))
  {
    var s := w.trace.link;
    if !su.Lssu? {
      assert Receive(s, su) == ProcessInService(EnterInService(s), su);
      TrafficTakes(w, EnterInService(s), su);
      EntryNoted(w, su, Receive(s, su));
    } else if su.status.ProcessorOutage? {
      assert Receive(s, su) == Emit(EnterInService(s).(remoteOutage := true), RemoteProcessorOutage);
      OutageEntryNoted(w, su);
    } else if su.status.OutOfService? {
      assert Receive(s, su) == FailAlignment(s, AlignmentFailure.ReceivedSios);
      FailureNoted(w, ReceiveOp(su), AlignmentFailure.ReceivedSios);
    } else {
      assert Receive(s, su) == s;
      UnmovedNoted(w, su);
    }
  }

  lemma OutageHeardNoted(w: Notes, su: SignalUnit, s: LinkState)
    requires Matches(w) && Serves(w.trace.link.state) && !TooManyErrors(w, false)
    requires su.Lssu? && su.status.ProcessorOutage?
    requires s == w.trace.link.(suerm := s.suerm) && Recorded(w, false, s.suerm)
    ensures Noted(w, ReceiveOp(su), if s.remoteOutage then s else Emit(s.(remoteOutage := true), RemoteProcessorOutage))
  {
  }

  lemma CongestedTo(s: LinkState)
    ensures Congested(s) == s.(remoteBusy := true, timers := s.timers.(t6 := Some(s.config.t6RemoteCongestion)),
                               events := s.events + (if s.remoteBusy then [] else [RemoteBusy]))
  {
    assert s.events + [] == s.events;
  }

  lemma BusyHeardNoted(w: Notes, su: SignalUnit, s: LinkState, s': LinkState)
    requires Matches(w) && Serves(w.trace.link.state) && !TooManyErrors(w, false)
    requires su.Lssu? && su.status.Busy?
    requires s == w.trace.link.(suerm := s.suerm) && Recorded(w, false, s.suerm)
    requires s' == s.(remoteBusy := true, timers := s.timers.(t6 := Some(s.config.t6RemoteCongestion)),
                      events := s.events + (if s.remoteBusy then [] else [RemoteBusy]))
    ensures Noted(w, ReceiveOp(su), s')
  {
  }

  lemma StatusHeardNoted(w: Notes, su: SignalUnit, s: LinkState)
    requires Matches(w) && Serves(w.trace.link.state) && !TooManyErrors(w, false) && su.Lssu?
    requires s == w.trace.link.(suerm := s.suerm) && Recorded(w, false, s.suerm)
    ensures Noted(w, ReceiveOp(su), ServingLssu(s, su.status))
  {
    match su.status
    case ProcessorOutage => OutageHeardNoted(w, su, s);
    case Busy =>
      CongestedTo(s);
      BusyHeardNoted(w, su, s, Congested(s));
    case OutOfService => OutNoted(w, ReceiveOp(su), s, OutOfServiceReason.ReceivedSios);
    case _ => OutNoted(w, ReceiveOp(su), s, AlignmentLost);
  }

  lemma ServingHears(w: Notes, su: SignalUnit)
    requires Matches(w) && Serves(w.trace.link.state)
    ensures Noted(w, ReceiveOp(su), Receive(w.trace.link, su))
  {
    var s := w.trace.link.(suerm := RecordSu(w.trace.link.suerm, false));
    MonitorJudges(w, false);
    if s.suerm.failed {
      assert Receive(w.trace.link, su) == FailOutOfService(s, SuermFailure);
      OutNoted(w, ReceiveOp(su), s, SuermFailure);
    } else if su.Lssu? {
      assert Receive(w.trace.link, su) == ServingLssu(s, su.status);
      StatusHeardNoted(w, su, s);
    } else {
      assert Receive(w.trace.link, su) == ProcessInService(s, su);
      TrafficTakes(w, s, su);
      TrafficNoted(w, su, s.suerm, Receive(w.trace.link, su));
    }
  }

  lemma ReceiveNoted(w: Notes, su: SignalUnit)
    requires Matches(w)
    ensures Noted(w, ReceiveOp(su), Receive(w.trace.link, su))
  {
    match w.trace.link.state
    case NotAligned => NotAlignedHears(w, su);
    case Aligned => AlignedHears(w, su);
    case Proving => ProvingHears(w, su);
    case AlignedReady => ReadyHears(w, su);
    case InService => ServingHears(w, su);
    case ProcessorOutage => ServingHears(w, su);
    case _ => NotReadyHears(w, su);
  }

  // ---- Errored units and local operations ----

  lemma ErrorCounted(w: Notes, s: LinkState)
    requires Matches(w) && w.trace.link.state.Proving? && !ProvingAborts(w)
    requires s == w.trace.link.(aerm := s.aerm)
    ensures Noted(w, CorruptedOp, s)
  {
  }

  lemma AbandonNoted(w: Notes, s: LinkState)
    requires Matches(w) && w.trace.link.state.Proving? && ProvingAborts(w) && !MayRetry(w)
    requires s == w.trace.link.(aerm := s.aerm)
    ensures Noted(w, CorruptedOp, FailAlignment(s, AermTripped))
  {
  }

  lemma ProvingErrorNoted(w: Notes)
    requires Matches(w) && w.trace.link.state.Proving?
    ensures Noted(w, CorruptedOp, ReceiveCorrupted(w.trace.link))
  {
    var s := w.trace.link.(aerm := AermError(w.trace.link.aerm));
    assert s.aerm.Tripped() <==> ProvingAborts(w);
    assert s.provingAttempt < s.config.provingAttempts <==> MayRetry(w);
    if !s.aerm.Tripped() {
      assert ReceiveCorrupted(w.trace.link) == s;
      ErrorCounted(w, s);
    } else if MayRetry(w) {
      assert ReceiveCorrupted(w.trace.link) == BackToAligned(s);
      BackNoted(w, CorruptedOp, s);
    } else {
      assert ReceiveCorrupted(w.trace.link) == FailAlignment(s, AermTripped);
      AbandonNoted(w, s);
    }
  }

  lemma ErrorRecorded(w: Notes, s: LinkState)
    requires Matches(w) && Serves(w.trace.link.state) && !TooManyErrors(w, true)
    requires s == w.trace.link.(suerm := s.suerm) && Recorded(w, true, s.suerm)
    ensures Noted(w, CorruptedOp, s)
  {
  }

  lemma ServingErrorNoted(w: Notes)
    requires Matches(w) && Serves(w.trace.link.state)
    ensures Noted(w, CorruptedOp, ReceiveCorrupted(w.trace.link))
  {
    var s := w.trace.link.(suerm := RecordSu(w.trace.link.suerm, true));
    MonitorJudges(w, true);
    if s.suerm.failed {
      assert ReceiveCorrupted(w.trace.link) == FailOutOfService(s, SuermFailure);
      OutNoted(w, CorruptedOp, s, SuermFailure);
    } else {
      assert ReceiveCorrupted(w.trace.link) == s;
      ErrorRecorded(w, s);
    }
  }

  lemma OtherErrorNoted(w: Notes)
    requires Matches(w) && !Serves(w.trace.link.state) && !w.trace.link.state.Proving?
    ensures Noted(w, CorruptedOp, w.trace.link)
  {
  }

  lemma CorruptedNoted(w: Notes)
    requires Matches(w)
    ensures Noted(w, CorruptedOp, ReceiveCorrupted(w.trace.link))
  {
    if w.trace.link.state.Proving? {
      ProvingErrorNoted(w);
    } else if Serves(w.trace.link.state) {
      ServingErrorNoted(w);
    } else {
      OtherErrorNoted(w);
    }
  }

  lemma FreshNoted(w: Notes, s: LinkState)
    requires Matches(w) && w.trace.link.state.OutOfService?
    requires s == RenewControllers(ResetFlags(w.trace.link))
    ensures Noted(w, StartOp, Awaiting(s))
  {
  }

  /** Operations that change nothing. */
  lemma NothingNoted(w: Notes, op: LinkOp)
    requires Matches(w)
    requires (op.StartOp? && !w.trace.link.state.OutOfService?) || (op.SubmitOp? && op.msu.Octets() > MAX_MSU_BODY)
    ensures Noted(w, op, w.trace.link)
  {
  }

  lemma StartNoted(w: Notes)
    requires Matches(w)
    ensures Noted(w, StartOp, Start(w.trace.link))
  {
    var s := w.trace.link;
    if s.state.OutOfService? {
      FreshNoted(w, RenewControllers(ResetFlags(s)));
    } else {
      NothingNoted(w, StartOp);
    }
  }

  lemma StopNoted(w: Notes)
    requires Matches(w)
    ensures Noted(w, StopOp, Stop(w.trace.link))
  {
  }

  lemma NotReadyNoted(w: Notes, s': LinkState)
    requires Matches(w) && w.trace.link.state.AlignedReady?
    requires var s := w.trace.link;
             s' == s.(localOutage := true, timers := s.timers.(t1 := None), state := AlignedNotReady)
    ensures Noted(w, LocalOutageOp, s')
  {
  }

  lemma OutageTold(w: Notes, s': LinkState)
    requires Matches(w) && !w.trace.link.state.AlignedReady?
    requires s' == w.trace.link.(localOutage := true, state := Leads(w, LocalOutageOp))
    ensures Noted(w, LocalOutageOp, s')
  {
  }

  lemma OutageNoted(w: Notes)
    requires Matches(w)
    ensures Noted(w, LocalOutageOp, LocalOutage(w.trace.link))
  {
    var s := w.trace.link;
    if s.state.AlignedReady? {
      NotReadyNoted(w, s.(localOutage := true, timers := s.timers.(t1 := None), state := AlignedNotReady));
    } else {
      OutageTold(w, s.(localOutage := true, state := Leads(w, LocalOutageOp)));
    }
  }

  lemma ReadyAgainNoted(w: Notes, s': LinkState)
    requires Matches(w) && w.trace.link.state.AlignedNotReady?
    requires var s := w.trace.link;
             s' == s.(localOutage := false, timers := s.timers.(t1 := Some(s.config.t1AlignedReady)),
                      state := AlignedReady)
    ensures Noted(w, LocalRecoveryOp, s')
  {
  }

  lemma RecoveryTold(w: Notes, s': LinkState)
    requires Matches(w) && !w.trace.link.state.AlignedNotReady?
    requires s' == w.trace.link.(localOutage := false, state := Leads(w, LocalRecoveryOp))
    ensures Noted(w, LocalRecoveryOp, s')
  {
  }

  lemma RecoveryNoted(w: Notes)
    requires Matches(w)
    ensures Noted(w, LocalRecoveryOp, LocalRecovery(w.trace.link))
  {
    var s := w.trace.link;
    if s.state.AlignedNotReady? {
      ReadyAgainNoted(w, LocalRecovery(s));
    } else {
      RecoveryTold(w, s.(localOutage := false, state := Leads(w, LocalRecoveryOp)));
    }
  }

  lemma FlagNoted(w: Notes, op: LinkOp, s': LinkState)
    requires Matches(w) && (op.SetEmergencyOp? || op.LocalBusyOp?)
    requires var s := w.trace.link;
             s' == s.(emergency := if op.SetEmergencyOp? then op.emergency else s.emergency,
                      localBusy := if op.LocalBusyOp? then op.busy else s.localBusy)
    ensures Noted(w, op, s')
  {
  }

  lemma QueuedNoted(w: Notes, m: Msu, tx': TxState)
    requires Matches(w) && m.Octets() <= MAX_MSU_BODY && tx'.unacked == w.trace.link.tx.unacked
    ensures Noted(w, LinkOp.SubmitOp(m), w.trace.link.(tx := tx'))
  {
  }

  lemma SubmissionNoted(w: Notes, m: Msu)
    requires Matches(w)
    ensures Noted(w, LinkOp.SubmitOp(m), Submission(w.trace.link, m).0)
  {
    if m.Octets() > MAX_MSU_BODY {
      NothingNoted(w, LinkOp.SubmitOp(m));
    } else {
      QueuedNoted(w, m, SubmitMsu(w.trace.link.tx, m));
    }
  }

  lemma TransmitNoted(w: Notes)
    requires Matches(w)
    ensures Noted(w, TransmitOp, Transmit(w.trace.link).0)
  {
    PollOnlyGrows(w.trace.link.tx);
  }
}
