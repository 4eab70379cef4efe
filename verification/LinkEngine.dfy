/**
 * The link engine as the program keeps it: one object whose methods update the state, six
 * timers, flags, controllers, monitors and the event queue in place. Each method is proved
 * to do what the function of the same operation in LinkControl says, and each operation
 * keeps the invariants of LinkInvariants, which make up Valid.
 */
module LinkEngine {
  import opened Basics
  import opened Retransmission
  import opened RetransmissionControl
  import opened Monitor
  import opened SignalUnits
  import opened LinkControl
  import opened LinkInvariants

  method StepTimerDown(t: Timer) returns (t': Timer, expired: bool)
    ensures (t', expired) == StepTimer(t)
  {
    t', expired := t, false;
    if t.Some? {
      if t.value <= 1 {
        return None, true;
      }
      t' := Some(t.value - 1);
    }
  }

  class Mtp2Link {
    const config: LinkConfig
    var state: Mtp2State
    var active: bool
    var emergency: bool
    var localOutage: bool
    var remoteOutage: bool
    var localBusy: bool
    var remoteBusy: bool
    var provingAttempt: u32
    var tx: TxControl
    var rx: RxControl
    var aerm: Aerm
    var suerm: Suerm
    var timers: Timers
    var events: seq<Event>

    ghost function Repr(): set<object>
      reads this
    {
      {this, tx, rx, aerm, suerm}
    }

    ghost function State(): LinkState
      reads this, tx, rx, aerm, suerm
    {
      LinkState(config, state, active, emergency, localOutage, remoteOutage, localBusy, remoteBusy,
                provingAttempt, tx.State(), rx.State(), aerm.State(), suerm.State(),
                timers, events)
    }

    /** What holds between the steps of an operation. */
    ghost predicate WellFormed()
      reads this, suerm
    {
      SuermOk(suerm.State())
    }

    /** What holds between operations: timers, flags and monitors agree with the link state. */
    ghost predicate Valid()
      reads this, tx, rx, aerm, suerm
    {
      WellFormed() && LinkOk(State())
    }

    constructor (config: LinkConfig)
      ensures Valid() && fresh(Repr())
      ensures State() == NewLink(config)
    {
      this.config := config;
      state := Mtp2State.OutOfService;
      active := false;
      emergency := config.emergency;
      localOutage, remoteOutage, localBusy, remoteBusy := false, false, false, false;
      provingAttempt := 0;
      tx := new TxControl(config.scheme);
      rx := new RxControl(config.scheme);
      aerm := new Aerm(config.aermThresholdNormal);
      suerm := new Suerm(config.suermThreshold, config.suermInterval);
      timers := STOPPED;
      events := [];
      new;
      NewLinkOk(config);
    }

    method PollEvent() returns (e: Option<Event>)
      requires Valid()
      modifies this
      ensures Valid() && Repr() == old(Repr())
      ensures State() == Step(old(State()), PollEventOp)
      ensures e == if old(events) == [] then None else Some(old(events)[0])
    {
      StepKeeps(State(), PollEventOp);
      e := None;
      if events != [] {
        e := Some(events[0]);
        events := events[1..];
      }
    }

    // ---- MTP3 and management primitives ----

    method RenewSession()
      requires WellFormed()
      modifies Repr()
      ensures WellFormed() && fresh(Repr() - old(Repr()))
      ensures State() == RenewControllers(old(State()))
    {
      tx := new TxControl(config.scheme);
      rx := new RxControl(config.scheme);
      suerm.Reset();
      aerm.Restart(config.aermThresholdNormal);
    }

    method StartAlignment()
      requires Valid()
      modifies Repr()
      ensures Valid() && fresh(Repr() - old(Repr()))
      ensures State() == Start(old(State()))
    {
      StartKeeps(State());
      if state != Mtp2State.OutOfService {
        return;
      }
      BeginAlignment();
    }

    method BeginAlignment()
      requires WellFormed()
      modifies this, tx, rx, aerm, suerm
      ensures WellFormed() && fresh(Repr() - old(Repr()))
      ensures State() == Awaiting(RenewControllers(ResetFlags(old(State()))))
    {
      ClearFlags();
      RenewSession();
      AwaitPeer();
    }

    method AwaitPeer()
      requires WellFormed()
      modifies this
      ensures WellFormed() && Repr() == old(Repr())
      ensures State() == Awaiting(old(State()))
    {
      timers := STOPPED.(t2 := Some(config.t2NotAligned));
      state := NotAligned;
    }

    method ClearFlags()
      requires WellFormed()
      modifies this
      ensures WellFormed() && Repr() == old(Repr())
      ensures State() == ResetFlags(old(State()))
    {
      ForgetConditions();
      active := true;
      emergency := config.emergency;
      provingAttempt := 0;
    }

    method ForgetConditions()
      requires WellFormed()
      modifies this
      ensures WellFormed() && Repr() == old(Repr())
      ensures State() == ClearConditions(old(State()))
    {
      remoteOutage := false;
      remoteBusy := false;
      localBusy := false;
    }

    method StopLink()
      requires Valid()
      modifies this
      ensures Valid() && Repr() == old(Repr())
      ensures State() == Stop(old(State()))
    {
      StopKeeps(State());
      active := false;
      timers := STOPPED;
      state := Mtp2State.OutOfService;
      events := events + [Event.OutOfService(Stopped)];
    }

    method SetEmergency(e: bool)
      requires Valid()
      modifies this
      ensures Valid() && Repr() == old(Repr())
      ensures State() == Step(old(State()), SetEmergencyOp(e))
    {
      StepKeeps(State(), SetEmergencyOp(e));
      emergency := e;
    }

    method LocalProcessorOutage()
      requires Valid()
      modifies this
      ensures Valid() && Repr() == old(Repr())
      ensures State() == LocalOutage(old(State()))
    {
      OutageKeeps(State());
      EnterOutage();
    }

    method EnterOutage()
      requires WellFormed()
      modifies this
      ensures WellFormed() && Repr() == old(Repr())
      ensures State() == LocalOutage(old(State()))
    {
      localOutage := true;
      match state
      case InService => state := Mtp2State.ProcessorOutage;
      case AlignedReady =>
        timers := timers.(t1 := None);
        state := AlignedNotReady;
      case _ =>
    }

    method LocalProcessorRecovered()
      requires Valid()
      modifies this
      ensures Valid() && Repr() == old(Repr())
      ensures State() == LocalRecovery(old(State()))
    {
      RecoveryKeeps(State());
      LeaveOutage();
    }

    method LeaveOutage()
      requires WellFormed()
      modifies this
      ensures WellFormed() && Repr() == old(Repr())
      ensures State() == LocalRecovery(old(State()))
    {
      localOutage := false;
      match state
      case ProcessorOutage => state := Mtp2State.InService;
      case AlignedNotReady =>
        state := AlignedReady;
        timers := timers.(t1 := Some(config.t1AlignedReady));
      case _ =>
    }

    method SetLocalBusy(busy: bool)
      requires Valid()
      modifies this
      ensures Valid() && Repr() == old(Repr())
      ensures State() == Step(old(State()), LocalBusyOp(busy))
    {
      StepKeeps(State(), LocalBusyOp(busy));
      localBusy := busy;
    }

    method Submit(m: Msu) returns (r: Result<()>)
      requires Valid()
      modifies this, tx, rx, aerm, suerm
      ensures Valid() && Repr() == old(Repr())
      ensures (State(), r) == Submission(old(State()), m)
    {
      StepKeeps(State(), LinkOp.SubmitOp(m));
      if m.Octets() > MAX_MSU_BODY {
        return Err(MsuTooLarge(m.Octets()));
      }
      tx.Submit(m);
      r := Ok(());
    }

    // ---- Outbound ----

    /** The unit of a link that does not poll traffic. */
    method HoldUnit() returns (su: SignalUnit)
      requires WellFormed()
      ensures su == HeldUnit(State())
    {
      var header := SuHeader(rx.lastReceived, rx.bib, tx.lastFsn, tx.fib);
      var alignment := if emergency then EmergencyAlignment else NormalAlignment;
      match state
      case OutOfService => su := MakeLssu(header, Status.OutOfService);
      case NotAligned => su := MakeLssu(header, OutOfAlignment);
      case Aligned => su := MakeLssu(header, alignment);
      case Proving => su := MakeLssu(header, alignment);
      case AlignedNotReady => su := MakeLssu(header, Status.ProcessorOutage);
      case ProcessorOutage => su := MakeLssu(header, Status.ProcessorOutage);
      case AlignedReady => su := Fisu(header);
      case InService => su := if localBusy then MakeLssu(header, Busy) else Fisu(header);
    }

    method PollTraffic() returns (su: SignalUnit)
      requires WellFormed()
      modifies tx
      ensures WellFormed()
      ensures State() == old(State()).(tx := PollTx(old(State()).tx).0)
      ensures su == FrameUnit(old(State()), PollTx(old(State()).tx).1)
    {
      var frame := tx.Poll();
      su := UnitFor(frame);
    }

    method UnitFor(frame: TxFrame) returns (su: SignalUnit)
      requires WellFormed()
      ensures su == FrameUnit(State(), frame)
    {
      var header := SuHeader(rx.lastReceived, rx.bib, frame.fsn, frame.fib);
      match frame.body
      case Fill => su := Fisu(header);
      case Message(m) =>
        var made := MakeMsu(header, m);
        su := if made.Ok? then made.value else Fisu(header);
    }

    method PollTransmit() returns (out: Option<SignalUnit>)
      requires Valid()
      modifies Repr()
      ensures Valid() && Repr() == old(Repr())
      ensures (State(), out) == Transmit(old(State()))
    {
      TransmitKeeps(State());
      out := NextUnit();
    }

    method NextUnit() returns (out: Option<SignalUnit>)
      requires WellFormed()
      modifies Repr()
      ensures WellFormed() && Repr() == old(Repr())
      ensures (State(), out) == Transmit(old(State()))
    {
      if state.OutOfService? && !active {
        return None;
      }
      var su: SignalUnit;
      if state.InService? && !localBusy && !remoteOutage && !remoteBusy {
        su := PollTraffic();
      } else {
        su := HoldUnit();
      }
      if state.InService? && tx.unacked != [] && timers.t7.None? {
        timers := timers.(t7 := Some(config.t7ExcessiveDelay));
      }
      out := Some(su);
    }

    // ---- Inbound ----

    method HandleSu(su: SignalUnit)
      requires Valid()
      modifies this, tx, rx, aerm, suerm
      ensures Valid() && Repr() == old(Repr())
      ensures State() == Receive(old(State()), su)
    {
      ReceiveKeeps(State(), su);
      Hear(su);
    }

    method Hear(su: SignalUnit)
      requires WellFormed()
      modifies this, tx, rx, aerm, suerm
      ensures WellFormed() && Repr() == old(Repr())
      ensures State() == Receive(old(State()), su)
    {
      if state.InService? || state.ProcessorOutage? {
        var failed := suerm.Record(false);
        if failed {
          GoOutOfService(SuermFailure);
          return;
        }
      }
      HearUnit(su);
    }

    method HearUnit(su: SignalUnit)
      requires WellFormed()
      modifies this, tx, rx, aerm, suerm
      ensures WellFormed() && Repr() == old(Repr())
      ensures State() == if su.Lssu? then ReceiveLssu(old(State()), su.status)
                         else ReceiveFisuOrMsu(old(State()), su)
    {
      match su
      case Lssu(_, status, _) => HandleLssu(status);
      case Fisu(header) => HandleFisuOrMsu(su);
      case MsuUnit(header, m) => HandleFisuOrMsu(su);
    }

    method HandleCorruptedSu()
      requires Valid()
      modifies this, tx, rx, aerm, suerm
      ensures Valid() && Repr() == old(Repr())
      ensures State() == ReceiveCorrupted(old(State()))
    {
      CorruptedKeeps(State());
      HearCorrupted();
    }

    method HearCorrupted()
      requires WellFormed()
      modifies this, tx, rx, aerm, suerm
      ensures WellFormed() && Repr() == old(Repr())
      ensures State() == ReceiveCorrupted(old(State()))
    {
      if state.Proving? {
        var tripped := aerm.RecordError();
        if tripped {
          AbortProving();
        }
      } else if state.InService? || state.ProcessorOutage? {
        var failed := suerm.Record(true);
        if failed {
          GoOutOfService(SuermFailure);
        }
      }
    }

    method HandleLssu(status: Status)
      requires WellFormed()
      modifies this, aerm, suerm
      ensures WellFormed() && Repr() == old(Repr())
      ensures State() == ReceiveLssu(old(State()), status)
    {
      if state.NotAligned? || state.Aligned? || state.Proving? {
        HandleLssuAligning(status);
      } else if state.AlignedReady? || state.AlignedNotReady? {
        HandleLssuReady(status);
      } else if state.InService? || state.ProcessorOutage? {
        HandleLssuServing(status);
      }
    }

    method UpgradeEmergency(status: Status)
      requires WellFormed()
      modifies this
      ensures WellFormed() && Repr() == old(Repr())
      ensures State() == Upgraded(old(State()), status)
    {
      if status.EmergencyAlignment? {
        emergency := true;
      }
    }

    method HandleLssuAligning(status: Status)
      requires WellFormed() && (state.NotAligned? || state.Aligned? || state.Proving?)
      modifies this, aerm
      ensures WellFormed() && Repr() == old(Repr())
      ensures State() == if old(state).NotAligned? then NotAlignedLssu(Upgraded(old(State()), status), status)
                         else if old(state).Aligned? then AlignedLssu(Upgraded(old(State()), status), status)
                         else ProvingLssu(Upgraded(old(State()), status), status)
    {
      UpgradeEmergency(status);
      if state.NotAligned? {
        HandleLssuNotAligned(status);
      } else if state.Aligned? {
        HandleLssuAligned(status);
      } else {
        HandleLssuProving(status);
      }
    }

    method HandleLssuNotAligned(status: Status)
      requires WellFormed()
      modifies this
      ensures WellFormed() && Repr() == old(Repr())
      ensures State() == NotAlignedLssu(old(State()), status)
    {
      if status.OutOfAlignment? || status.NormalAlignment? || status.EmergencyAlignment? {
        timers := timers.(t2 := None, t3 := Some(config.t3Aligned));
        state := Aligned;
      }
    }

    method HandleLssuAligned(status: Status)
      requires WellFormed()
      modifies this, aerm
      ensures WellFormed() && Repr() == old(Repr())
      ensures State() == AlignedLssu(old(State()), status)
    {
      if status.NormalAlignment? || status.EmergencyAlignment? {
        timers := timers.(t3 := None);
        BeginProving();
      } else if status.OutOfService? {
        AbandonAlignment(AlignmentFailure.ReceivedSios);
      }
    }

    method HandleLssuProving(status: Status)
      requires WellFormed()
      modifies this, aerm
      ensures WellFormed() && Repr() == old(Repr())
      ensures State() == ProvingLssu(old(State()), status)
    {
      if status.EmergencyAlignment? {
        BeginProving();
      } else if status.OutOfAlignment? {
        timers := timers.(t4 := None, t3 := Some(config.t3Aligned));
        state := Aligned;
      } else if status.OutOfService? {
        AbandonAlignment(AlignmentFailure.ReceivedSios);
      }
    }

    method HandleLssuReady(status: Status)
      requires WellFormed()
      modifies this, suerm
      ensures WellFormed() && Repr() == old(Repr())
      ensures State() == ReadyLssu(old(State()), status)
    {
      if status.OutOfService? {
        AbandonAlignment(AlignmentFailure.ReceivedSios);
      } else if status.ProcessorOutage? && state.AlignedReady? {
        GoInService();
        remoteOutage := true;
        events := events + [RemoteProcessorOutage];
      }
    }

    method HandleLssuServing(status: Status)
      requires WellFormed()
      modifies this
      ensures WellFormed() && Repr() == old(Repr())
      ensures State() == ServingLssu(old(State()), status)
    {
      match status {
        case ProcessorOutage =>
          if !remoteOutage {
            remoteOutage := true;
            events := events + [RemoteProcessorOutage];
          }
        case Busy => NoteRemoteBusy();
        case OutOfService => GoOutOfService(OutOfServiceReason.ReceivedSios);
        case _ => GoOutOfService(AlignmentLost);
      }
    }

    method NoteRemoteBusy()
      requires WellFormed()
      modifies this
      ensures WellFormed() && Repr() == old(Repr())
      ensures State() == Congested(old(State()))
    {
      if !remoteBusy {
        remoteBusy := true;
        events := events + [RemoteBusy];
      }
      timers := timers.(t6 := Some(config.t6RemoteCongestion));
    }

    method HandleFisuOrMsu(su: SignalUnit)
      requires WellFormed()
      modifies this, tx, rx, aerm, suerm
      ensures WellFormed() && Repr() == old(Repr())
      ensures State() == ReceiveFisuOrMsu(old(State()), su)
    {
      match state
      case AlignedReady =>
        GoInService();
        ProcessInServiceSu(su);
      case InService => ProcessInServiceSu(su);
      case ProcessorOutage => ProcessInServiceSu(su);
      case _ =>
    }

    method ProcessInServiceSu(su: SignalUnit)
      requires WellFormed()
      modifies Repr()
      ensures WellFormed() && Repr() == old(Repr())
      ensures State() == ProcessInService(old(State()), su)
    {
      Acknowledge(su.header);
      EndRemoteConditions();
      if su.MsuUnit? {
        CheckSequence(su.header.fsn, su.msu);
      }
    }

    method Acknowledge(header: SuHeader)
      requires WellFormed()
      modifies this, tx
      ensures WellFormed() && Repr() == old(Repr())
      ensures State() == ApplyAck(old(State()), header)
    {
      tx.OnAck(header.bsn, header.bib);
      if tx.unacked == [] {
        timers := timers.(t7 := None);
      } else {
        timers := timers.(t7 := Some(config.t7ExcessiveDelay));
      }
    }

    method EndRemoteConditions()
      requires WellFormed()
      modifies this
      ensures WellFormed() && Repr() == old(Repr())
      ensures State() == ClearRemote(old(State()))
    {
      if remoteOutage {
        remoteOutage := false;
        events := events + [RemoteProcessorRecovered];
      }
      if remoteBusy {
        remoteBusy := false;
        timers := timers.(t6 := None);
        events := events + [RemoteBusyEnded];
      }
    }

    method CheckSequence(fsn: octet, m: Msu)
      requires WellFormed()
      modifies this, rx
      ensures WellFormed() && Repr() == old(Repr())
      ensures State() == CheckMsu(old(State()), fsn, m)
    {
      if state.ProcessorOutage? {
        return;
      }
      var outcome := rx.OnMsu(fsn, m);
      match outcome
      case Accepted(accepted) => events := events + [MsuReceived(accepted)];
      case RetransmissionRequested => events := events + [Event.RetransmissionRequested];
      case Discarded =>
    }

    // ---- State helpers ----

    method BeginProving()
      requires WellFormed()
      modifies this, aerm
      ensures WellFormed() && Repr() == old(Repr())
      ensures State() == EnterProving(old(State()))
    {
      state := Mtp2State.Proving;
      provingAttempt := WrappingInc(provingAttempt);
      var period, threshold;
      if emergency {
        period, threshold := config.t4ProvingEmergency, config.aermThresholdEmergency;
      } else {
        period, threshold := config.t4ProvingNormal, config.aermThresholdNormal;
      }
      aerm.Restart(threshold);
      timers := timers.(t4 := Some(period));
    }

    method CompleteProving()
      requires WellFormed()
      modifies this
      ensures WellFormed() && Repr() == old(Repr())
      ensures State() == ProvingSucceeded(old(State()))
    {
      timers := timers.(t4 := None);
      if localOutage {
        state := AlignedNotReady;
      } else {
        state := AlignedReady;
        timers := timers.(t1 := Some(config.t1AlignedReady));
      }
    }

    method AbortProving()
      requires WellFormed()
      modifies this
      ensures WellFormed() && Repr() == old(Repr())
      ensures State() == ProvingAborted(old(State()))
    {
      if provingAttempt < config.provingAttempts {
        timers := timers.(t4 := None);
        state := Aligned;
        timers := timers.(t3 := Some(config.t3Aligned));
      } else {
        AbandonAlignment(AermTripped);
      }
    }

    method GoInService()
      requires WellFormed()
      modifies this, suerm
      ensures WellFormed() && Repr() == old(Repr())
      ensures State() == EnterInService(old(State()))
    {
      timers := timers.(t1 := None);
      suerm.Reset();
      state := Mtp2State.InService;
      events := events + [Event.InService];
    }

    method AbandonAlignment(failure: AlignmentFailure)
      requires WellFormed()
      modifies this
      ensures WellFormed() && Repr() == old(Repr())
      ensures State() == FailAlignment(old(State()), failure)
    {
      timers := STOPPED;
      state := Mtp2State.OutOfService;
      events := events + [AlignmentFailed(failure)];
    }

    method GoOutOfService(reason: OutOfServiceReason)
      requires WellFormed()
      modifies this
      ensures WellFormed() && Repr() == old(Repr())
      ensures State() == FailOutOfService(old(State()), reason)
    {
      ForgetConditions();
      timers := STOPPED;
      state := Mtp2State.OutOfService;
      events := events + [Event.OutOfService(reason)];
    }

    // ---- Time ----

    method AdvanceTick()
      requires Valid()
      modifies this
      ensures Valid() && Repr() == old(Repr())
      ensures State() == Tick(old(State()))
    {
      TickKeeps(State());
      var acted := TickHearingTimers();
      if acted {
        return;
      }
      acted := TickProvingTimers();
      if acted {
        return;
      }
      TickServiceTimers();
    }

    method TickHearingTimers() returns (acted: bool)
      requires WellFormed()
      modifies this
      ensures WellFormed() && Repr() == old(Repr())
      ensures (State(), acted) == TickHearing(old(State()))
    {
      var t2, expired2 := StepTimerDown(timers.t2);
      timers := timers.(t2 := t2);
      if expired2 && state.NotAligned? {
        AbandonAlignment(T2Expired);
        return true;
      }
      var t3, expired3 := StepTimerDown(timers.t3);
      timers := timers.(t3 := t3);
      if expired3 && state.Aligned? {
        AbandonAlignment(T3Expired);
        return true;
      }
      acted := false;
    }

    method TickProvingTimers() returns (acted: bool)
      requires WellFormed()
      modifies this
      ensures WellFormed() && Repr() == old(Repr())
      ensures (State(), acted) == TickProving(old(State()))
    {
      var t4, expired4 := StepTimerDown(timers.t4);
      timers := timers.(t4 := t4);
      if expired4 && state.Proving? {
        CompleteProving();
        return true;
      }
      var t1, expired1 := StepTimerDown(timers.t1);
      timers := timers.(t1 := t1);
      if expired1 && state.AlignedReady? {
        AbandonAlignment(T1Expired);
        return true;
      }
      acted := false;
    }

    method TickServiceTimers()
      requires WellFormed()
      modifies this
      ensures WellFormed() && Repr() == old(Repr())
      ensures State() == TickService(old(State()))
    {
      var t6, expired6 := StepTimerDown(timers.t6);
      timers := timers.(t6 := t6);
      if expired6 && (state.InService? || state.ProcessorOutage?) {
        GoOutOfService(T6Expired);
        return;
      }
      var t7, expired7 := StepTimerDown(timers.t7);
      timers := timers.(t7 := t7);
      if expired7 && (state.InService? || state.ProcessorOutage?) {
        GoOutOfService(T7Expired);
      }
    }
  }
}
