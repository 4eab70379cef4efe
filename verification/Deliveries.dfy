/** What a link reports to MTP3: exactly the MSUs its sequence check accepts. */
module Deliveries {
  import opened Basics
  import opened Retransmission
  import opened Monitor
  import opened SignalUnits
  import opened LinkControl

  /** The MSUs among a sequence of events, in order. */
  function Msus(events: seq<Event>): seq<Msu> {
    if events == [] then []
    else
      var last := events[|events| - 1];
      Msus(events[..|events| - 1]) + (if last.MsuReceived? then [last.msu] else [])
  }

  lemma {:induction false} MsusConcat(x: seq<Event>, y: seq<Event>)
    ensures Msus(x + y) == Msus(x) + Msus(y)
  {
    if y == [] {
      assert x + y == x;
    } else {
      MsusConcat(x, y[..|y| - 1]);
      assert (x + y)[..|x + y| - 1] == x + y[..|y| - 1];
    }
  }

  lemma MsusOneMore(events: seq<Event>, e: Event)
    ensures Msus(events + [e]) == Msus(events) + (if e.MsuReceived? then [e.msu] else [])
  {
    assert (events + [e])[..|events|] == events;
  }

  /** Failing, stopping and entering service report no MSU. */
  lemma PhaseMsus(s: LinkState, failure: AlignmentFailure, reason: OutOfServiceReason)
    ensures Msus(FailAlignment(s, failure).events) == Msus(s.events)
    ensures Msus(FailOutOfService(s, reason).events) == Msus(s.events)
    ensures Msus(Stop(s).events) == Msus(s.events) == Msus(EnterInService(s).events)
  {
    MsusOneMore(s.events, AlignmentFailed(failure));
    MsusOneMore(s.events, Event.OutOfService(reason));
    MsusOneMore(s.events, Event.OutOfService(Stopped));
    MsusOneMore(s.events, Event.InService);
  }

  lemma ServingMsus(s: LinkState, status: Status)
    ensures Msus(ServingLssu(s, status).events) == Msus(s.events)
  {
    PhaseMsus(s, AermTripped, OutOfServiceReason.ReceivedSios);
    PhaseMsus(s, AermTripped, AlignmentLost);
    MsusOneMore(s.events, RemoteProcessorOutage);
    MsusOneMore(s.events, RemoteBusy);
  }

  lemma AligningMsus(s: LinkState, s': LinkState)
    requires StillAligning(s, s')
    ensures Msus(s'.events) == Msus(s.events)
  {
    MsusOneMore(s.events, AlignmentFailed(AlignmentFailure.ReceivedSios));
  }

  lemma ReadyMsus(s: LinkState, status: Status)
    ensures Msus(ReadyLssu(s, status).events) == Msus(s.events)
  {
    PhaseMsus(s, AlignmentFailure.ReceivedSios, Stopped);
    MsusOneMore(EnterInService(s).events, RemoteProcessorOutage);
  }

  lemma LssuMsus(s: LinkState, status: Status)
    ensures Msus(ReceiveLssu(s, status).events) == Msus(s.events)
  {
    if s.Serving() {
      assert ReceiveLssu(s, status) == ServingLssu(s, status);
      ServingMsus(s, status);
    } else if s.state.AlignedReady? || s.state.AlignedNotReady? {
      assert ReceiveLssu(s, status) == ReadyLssu(s, status);
      ReadyMsus(s, status);
    } else if !s.state.OutOfService? {
      AligningMsus(Upgraded(s, status), ReceiveLssu(s, status));
    }
  }

  lemma CorruptedMsus(s: LinkState)
    ensures Msus(ReceiveCorrupted(s).events) == Msus(s.events)
  {
    if s.state.Proving? {
      PhaseMsus(s.(aerm := AermError(s.aerm)), AermTripped, Stopped);
    } else {
      PhaseMsus(s.(suerm := RecordSu(s.suerm, true)), AermTripped, SuermFailure);
    }
  }

  lemma HearingMsus(s: LinkState)
    ensures Msus(TickHearing(s).0.events) == Msus(s.events)
  {
    var s2 := s.(timers := s.timers.(t2 := StepTimer(s.timers.t2).0));
    PhaseMsus(s2, T2Expired, Stopped);
    PhaseMsus(s2.(timers := s2.timers.(t3 := StepTimer(s.timers.t3).0)), T3Expired, Stopped);
  }

  lemma ProvingMsus(s: LinkState)
    ensures Msus(TickProving(s).0.events) == Msus(s.events)
  {
    var s4 := s.(timers := s.timers.(t4 := StepTimer(s.timers.t4).0));
    PhaseMsus(s4.(timers := s4.timers.(t1 := StepTimer(s.timers.t1).0)), T1Expired, Stopped);
  }

  lemma ServiceMsus(s: LinkState)
    ensures Msus(TickService(s).events) == Msus(s.events)
  {
    var s6 := s.(timers := s.timers.(t6 := StepTimer(s.timers.t6).0));
    PhaseMsus(s6, T1Expired, T6Expired);
    PhaseMsus(s6.(timers := s6.timers.(t7 := StepTimer(s.timers.t7).0)), T1Expired, T7Expired);
  }

  lemma TickMsus(s: LinkState)
    ensures Msus(Tick(s).events) == Msus(s.events)
  {
    HearingMsus(s);
    ProvingMsus(TickHearing(s).0);
    ServiceMsus(TickProving(TickHearing(s).0).0);
  }

  /** What the sequence check delivers to MTP3. */
  function Deliverable(rx: RxState, fsn: octet, m: Msu): seq<Msu> {
    var outcome := ReceiveMsu(rx, fsn, m).1;
    if outcome.Accepted? then [outcome.msu] else []
  }

  lemma ClearMsus(s: LinkState)
    ensures Msus(ClearRemote(s).events) == Msus(s.events)
  {
    var s1 := if s.remoteOutage then Emit(s.(remoteOutage := false), RemoteProcessorRecovered) else s;
    MsusOneMore(s.events, RemoteProcessorRecovered);
    MsusOneMore(s1.events, RemoteBusyEnded);
  }

  lemma CheckMsus(s: LinkState, fsn: octet, m: Msu)
    ensures Msus(CheckMsu(s, fsn, m).events)
         == Msus(s.events) + if s.state.ProcessorOutage? then [] else Deliverable(s.rx, fsn, m)
  {
    var outcome := ReceiveMsu(s.rx, fsn, m).1;
    match outcome
    case Accepted(accepted) => MsusOneMore(s.events, MsuReceived(accepted));
    case RetransmissionRequested => MsusOneMore(s.events, Event.RetransmissionRequested);
    case Discarded =>
  }

  lemma ProcessMsus(s: LinkState, su: SignalUnit)
    ensures Msus(ProcessInService(s, su).events)
         == Msus(s.events) + if su.MsuUnit? && !s.state.ProcessorOutage?
                             then Deliverable(s.rx, su.header.fsn, su.msu) else []
  {
    var acked := ApplyAck(s, su.header);
    ClearMsus(acked);
    if su.MsuUnit? {
      CheckMsus(ClearRemote(acked), su.header.fsn, su.msu);
    }
  }

  /** A unit that reaches the controllers reports its MSU iff the sequence check accepts it. */
  lemma TakenMsus(s: LinkState, su: SignalUnit)
    requires Taken(s, su)
    ensures Msus(Receive(s, su).events)
         == Msus(s.events) + if su.MsuUnit? && !s.state.ProcessorOutage?
                             then Deliverable(s.rx, su.header.fsn, su.msu) else []
  {
    var s1 := if s.Serving() then s.(suerm := RecordSu(s.suerm, false)) else s;
    if s1.state.AlignedReady? {
      PhaseMsus(s1, AermTripped, Stopped);
      ProcessMsus(EnterInService(s1), su);
    } else {
      ProcessMsus(s1, su);
    }
  }

  /** Any other unit reports no MSU. */
  lemma UntakenMsus(s: LinkState, su: SignalUnit)
    requires !Taken(s, su)
    ensures Msus(Receive(s, su).events) == Msus(s.events)
  {
    var s1 := if s.Serving() then s.(suerm := RecordSu(s.suerm, false)) else s;
    if s1.Serving() && s1.suerm.failed {
      PhaseMsus(s1, AermTripped, SuermFailure);
    } else if su.Lssu? {
      LssuMsus(s1, su.status);
    }
  }
}
