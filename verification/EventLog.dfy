/** The language of the event log: what any run of a link can report, in which order. */
module EventLog {
  import opened Basics
  import opened Retransmission
  import opened Monitor
  import opened SignalUnits
  import opened LinkControl
  import opened LinkInvariants

  /** What the log says so far: no session, a session and the peer's conditions, or nonsense. */
  datatype Session = Down | Up(busy: bool, outage: bool) | Nonsense

  function Next(session: Session, e: Event): Session {
    match e
    case InService => if session.Down? then Up(false, false) else Nonsense
    case OutOfService(_) => if session.Nonsense? then Nonsense else Down
    case AlignmentFailed(_) => if session.Down? then Down else Nonsense
    case MsuReceived(_) => if session.Up? then session else Nonsense
    case RetransmissionRequested => if session.Up? then session else Nonsense
    case RemoteBusy => if session.Up? && !session.busy then session.(busy := true) else Nonsense
    case RemoteBusyEnded => if session.Up? && session.busy then session.(busy := false) else Nonsense
    case RemoteProcessorOutage =>
      if session.Up? && !session.outage then session.(outage := true) else Nonsense
    case RemoteProcessorRecovered =>
      if session.Up? && session.outage then session.(outage := false) else Nonsense
  }

  function Replay(log: seq<Event>): Session {
    if log == [] then Down else Next(Replay(log[..|log| - 1]), log[|log| - 1])
  }

  /** The session a link is in. */
  function SessionOf(s: LinkState): Session {
    if s.Serving() then Up(s.remoteBusy, s.remoteOutage) else Down
  }

  /** The log of a link whose earlier events are `drained` tells exactly its session. */
  ghost predicate Told(drained: seq<Event>, s: LinkState) {
    Replay(drained + s.events) == SessionOf(s)
  }

  lemma ReplayOneMore(log: seq<Event>, e: Event)
    ensures Replay(log + [e]) == Next(Replay(log), e)
  {
    assert (log + [e])[..|log|] == log;
  }

  /** Raising an event moves the replayed session by that event. */
  lemma EmitTold(drained: seq<Event>, s: LinkState, s': LinkState, e: Event)
    requires Told(drained, s) && s'.events == s.events + [e]
    requires Next(SessionOf(s), e) == SessionOf(s')
    ensures Told(drained, s')
  {
    ReplayOneMore(drained + s.events, e);
    assert drained + s'.events == (drained + s.events) + [e];
  }

  /** Nothing is reported and the session stays. */
  predicate Silent(s: LinkState, s': LinkState) {
    s'.events == s.events && SessionOf(s') == SessionOf(s)
  }

  lemma SilentTold(drained: seq<Event>, s: LinkState, s': LinkState)
    requires Told(drained, s) && Silent(s, s')
    ensures Told(drained, s')
  {
  }

  lemma FailTold(drained: seq<Event>, s: LinkState, failure: AlignmentFailure, reason: OutOfServiceReason)
    requires Told(drained, s)
    ensures !s.Serving() ==> Told(drained, FailAlignment(s, failure))
    ensures Told(drained, FailOutOfService(s, reason)) && Told(drained, Stop(s))
  {
    if !s.Serving() {
      EmitTold(drained, s, FailAlignment(s, failure), AlignmentFailed(failure));
    }
    EmitTold(drained, s, FailOutOfService(s, reason), Event.OutOfService(reason));
    EmitTold(drained, s, Stop(s), Event.OutOfService(Stopped));
  }

  lemma EnterTold(drained: seq<Event>, s: LinkState)
    requires Told(drained, s) && LinkOk(s) && s.state.AlignedReady?
    ensures Told(drained, EnterInService(s))
  {
    EmitTold(drained, s, EnterInService(s), Event.InService);
  }

  lemma ClearTold(drained: seq<Event>, s: LinkState)
    requires Told(drained, s) && s.Serving()
    ensures Told(drained, ClearRemote(s)) && ClearRemote(s).Serving()
  {
    var s1 := if s.remoteOutage then Emit(s.(remoteOutage := false), RemoteProcessorRecovered) else s;
    if s.remoteOutage {
      EmitTold(drained, s, s1, RemoteProcessorRecovered);
    }
    if s1.remoteBusy {
      EmitTold(drained, s1, ClearRemote(s), RemoteBusyEnded);
    }
  }

  lemma CheckTold(drained: seq<Event>, s: LinkState, fsn: octet, m: Msu)
    requires Told(drained, s) && s.Serving()
    ensures Told(drained, CheckMsu(s, fsn, m))
  {
    var (rx', outcome) := ReceiveMsu(s.rx, fsn, m);
    if !s.state.ProcessorOutage? {
      match outcome
      case Accepted(a) => EmitTold(drained, s, CheckMsu(s, fsn, m), MsuReceived(a));
      case RetransmissionRequested =>
        EmitTold(drained, s, CheckMsu(s, fsn, m), Event.RetransmissionRequested);
      case Discarded =>
    }
  }

  lemma ProcessTold(drained: seq<Event>, s: LinkState, su: SignalUnit)
    requires Told(drained, s) && s.Serving()
    ensures Told(drained, ProcessInService(s, su))
  {
    var acked := ApplyAck(s, su.header);
    assert Told(drained, acked);
    ClearTold(drained, acked);
    if su.MsuUnit? {
      CheckTold(drained, ClearRemote(acked), su.header.fsn, su.msu);
    }
  }

  lemma ServingLssuTold(drained: seq<Event>, s: LinkState, status: Status)
    requires Told(drained, s) && s.Serving()
    ensures Told(drained, ServingLssu(s, status))
  {
    match status
    case ProcessorOutage =>
      if !s.remoteOutage {
        EmitTold(drained, s, ServingLssu(s, status), RemoteProcessorOutage);
      }
    case Busy =>
      if !s.remoteBusy {
        EmitTold(drained, s, Congested(s), RemoteBusy);
      }
    case OutOfService => FailTold(drained, s, AermTripped, OutOfServiceReason.ReceivedSios);
    case _ => FailTold(drained, s, AermTripped, AlignmentLost);
  }

  lemma ReadyLssuTold(drained: seq<Event>, s: LinkState, status: Status)
    requires Told(drained, s) && LinkOk(s) && (s.state.AlignedReady? || s.state.AlignedNotReady?)
    ensures Told(drained, ReadyLssu(s, status))
  {
    if status.OutOfService? {
      FailTold(drained, s, AlignmentFailure.ReceivedSios, Stopped);
    } else if status.ProcessorOutage? && s.state.AlignedReady? {
      EnterTold(drained, s);
      EmitTold(drained, EnterInService(s), ReadyLssu(s, status), RemoteProcessorOutage);
    }
  }

  lemma AligningTold(drained: seq<Event>, s: LinkState, s': LinkState)
    requires Told(drained, s) && !s.Serving() && StillAligning(s, s')
    ensures Told(drained, s')
  {
    if s'.events != s.events {
      EmitTold(drained, s, s', AlignmentFailed(AlignmentFailure.ReceivedSios));
    }
  }

  lemma LssuTold(drained: seq<Event>, s: LinkState, status: Status)
    requires Told(drained, s) && LinkOk(s)
    ensures Told(drained, ReceiveLssu(s, status))
  {
    if s.Serving() {
      ServingLssuTold(drained, s, status);
    } else if s.state.AlignedReady? || s.state.AlignedNotReady? {
      ReadyLssuTold(drained, s, status);
    } else if !s.state.OutOfService? {
      AligningTold(drained, Upgraded(s, status), ReceiveLssu(s, status));
    }
  }

  lemma ReceiveTold(drained: seq<Event>, s: LinkState, su: SignalUnit)
    requires Told(drained, s) && LinkOk(s)
    ensures Told(drained, Receive(s, su))
  {
    var s1 := if s.Serving() then s.(suerm := RecordSu(s.suerm, false)) else s;
    assert Told(drained, s1);
    if s1.Serving() && s1.suerm.failed {
      FailTold(drained, s1, AermTripped, SuermFailure);
    } else if su.Lssu? {
      if s1.Serving() {
        ServingLssuTold(drained, s1, su.status);
      } else {
        LssuTold(drained, s1, su.status);
      }
    } else if s1.state.AlignedReady? {
      EnterTold(drained, s1);
      ProcessTold(drained, EnterInService(s1), su);
    } else if s1.Serving() {
      ProcessTold(drained, s1, su);
    }
  }

  lemma AbortTold(drained: seq<Event>, s: LinkState)
    requires Told(drained, s) && s.state.Proving?
    ensures Told(drained, ProvingAborted(s))
  {
    if s.provingAttempt < s.config.provingAttempts {
      SilentTold(drained, s, BackToAligned(s));
    } else {
      EmitTold(drained, s, FailAlignment(s, AermTripped), AlignmentFailed(AermTripped));
    }
  }

  lemma ProvingErrorTold(drained: seq<Event>, s: LinkState)
    requires Told(drained, s) && s.state.Proving?
    ensures Told(drained, ReceiveCorrupted(s))
  {
    var s1 := s.(aerm := AermError(s.aerm));
    SilentTold(drained, s, s1);
    if s1.aerm.Tripped() {
      AbortTold(drained, s1);
    }
  }

  lemma CorruptedTold(drained: seq<Event>, s: LinkState)
    requires Told(drained, s)
    ensures Told(drained, ReceiveCorrupted(s))
  {
    if s.state.Proving? {
      ProvingErrorTold(drained, s);
    } else if s.Serving() {
      var s1 := s.(suerm := RecordSu(s.suerm, true));
      SilentTold(drained, s, s1);
      FailTold(drained, s1, AermTripped, SuermFailure);
    }
  }

  lemma HearingTold(drained: seq<Event>, s: LinkState)
    requires Told(drained, s)
    ensures Told(drained, TickHearing(s).0)
  {
    var s2 := s.(timers := s.timers.(t2 := StepTimer(s.timers.t2).0));
    var s3 := s2.(timers := s2.timers.(t3 := StepTimer(s.timers.t3).0));
    FailTold(drained, s2, T2Expired, Stopped);
    FailTold(drained, s3, T3Expired, Stopped);
  }

  lemma SilentSuccess(s: LinkState)
    requires s.state.Proving?
    ensures Silent(s, ProvingSucceeded(s))
  {
  }

  lemma ProvingTold(drained: seq<Event>, s: LinkState)
    requires Told(drained, s)
    ensures Told(drained, TickProving(s).0)
  {
    var (t4, expired4) := StepTimer(s.timers.t4);
    var (t1, expired1) := StepTimer(s.timers.t1);
    var s4 := s.(timers := s.timers.(t4 := t4));
    var s1 := s4.(timers := s4.timers.(t1 := t1));
    if expired4 && s.state.Proving? {
      SilentSuccess(s4);
      SilentTold(drained, s, ProvingSucceeded(s4));
    } else {
      SilentTold(drained, s, s1);
      FailTold(drained, s1, T1Expired, Stopped);
    }
  }

  lemma ServiceTold(drained: seq<Event>, s: LinkState)
    requires Told(drained, s)
    ensures Told(drained, TickService(s))
  {
    var s6 := s.(timers := s.timers.(t6 := StepTimer(s.timers.t6).0));
    var s7 := s6.(timers := s6.timers.(t7 := StepTimer(s.timers.t7).0));
    FailTold(drained, s6, T1Expired, T6Expired);
    FailTold(drained, s7, T1Expired, T7Expired);
  }

  lemma TickTold(drained: seq<Event>, s: LinkState)
    requires Told(drained, s)
    ensures Told(drained, Tick(s))
  {
    HearingTold(drained, s);
    ProvingTold(drained, TickHearing(s).0);
    ServiceTold(drained, TickProving(TickHearing(s).0).0);
  }

  lemma SilentTransmit(s: LinkState, s': LinkState)
    requires OnlyTransmits(s, s')
    ensures Silent(s, s')
  {
  }

  lemma SilentTransmission(s: LinkState)
    ensures Silent(s, Transmit(s).0)
  {
    SilentTransmit(s, Transmit(s).0);
  }

  lemma SilentSubmission(s: LinkState, m: Msu)
    ensures Silent(s, Submission(s, m).0)
  {
  }

  lemma SilentOutage(s: LinkState)
    ensures Silent(s, LocalOutage(s))
  {
  }

  lemma SilentRecovery(s: LinkState)
    ensures Silent(s, LocalRecovery(s))
  {
  }

  lemma SilentStart(s: LinkState)
    ensures Silent(s, Start(s))
  {
  }

  /** The operations that raise no event stay in the session they find. */
  lemma SilentStep(s: LinkState, op: LinkOp)
    requires !op.StopOp? && !op.ReceiveOp? && !op.CorruptedOp? && !op.TickOp? && !op.PollEventOp?
    ensures Silent(s, Step(s, op))
  {
    match op
    case StartOp => SilentStart(s);
    case LocalOutageOp => SilentOutage(s);
    case LocalRecoveryOp => SilentRecovery(s);
    case SubmitOp(m) => SilentSubmission(s, m);
    case TransmitOp => SilentTransmission(s);
    case SetEmergencyOp(e) =>
    case LocalBusyOp(busy) =>
  }

  lemma StepTold(t: Trace, op: LinkOp)
    requires Told(t.drained, t.link) && LinkOk(t.link)
    ensures Told(TraceStep(t, op).drained, TraceStep(t, op).link)
  {
    match op
    case StopOp => FailTold(t.drained, t.link, AermTripped, Stopped);
    case ReceiveOp(su) => ReceiveTold(t.drained, t.link, su);
    case CorruptedOp => CorruptedTold(t.drained, t.link);
    case TickOp => TickTold(t.drained, t.link);
    case PollEventOp =>
      if t.link.events != [] {
        assert t.drained + [t.link.events[0]] + t.link.events[1..] == t.drained + t.link.events;
      }
    case _ => SilentStep(t.link, op);
  }

  /**
   * In every run the full event log makes sense as a sequence of service sessions, and
   * replaying it gives exactly the session the link is in.
   */
  lemma {:induction false} LogTellsSession(config: LinkConfig, ops: seq<LinkOp>)
    ensures var t := LinkRun(config, ops);
            Replay(t.Log()) == SessionOf(t.link) && !Replay(t.Log()).Nonsense?
  {
    if ops != [] {
      LogTellsSession(config, ops[..|ops| - 1]);
      LinkInvariant(config, ops[..|ops| - 1]);
      StepTold(LinkRun(config, ops[..|ops| - 1]), ops[|ops| - 1]);
    }
  }

  /** What makes sense is prefix-closed, so every earlier log made sense too. */
  lemma {:induction false} SensePrefix(log: seq<Event>, n: nat)
    requires n <= |log| && !Replay(log).Nonsense?
    ensures !Replay(log[..n]).Nonsense?
  {
    if n < |log| {
      SensePrefix(log[..|log| - 1], n);
      assert log[..|log| - 1][..n] == log[..n];
    } else {
      assert log[..n] == log;
    }
  }

  lemma {:induction false} StaysUp(log: seq<Event>, i: nat, j: nat)
    requires i <= j <= |log| && Replay(log[..i]).Up? && !Replay(log[..j]).Nonsense?
    requires forall k :: i <= k < j ==> !log[k].OutOfService?
    ensures Replay(log[..j]).Up?
  {
    if i < j {
      assert log[..j][..j - 1] == log[..j - 1];
      StaysUp(log, i, j - 1);
    }
  }

  /** Two entries into service have an exit between them. */
  lemma {:induction false} SessionsAreSeparated(log: seq<Event>, i: nat, j: nat)
    requires !Replay(log).Nonsense?
    requires i < j < |log| && log[i].InService? && log[j].InService?
    ensures exists k :: i < k < j && log[k].OutOfService?
  {
    SensePrefix(log, j + 1);
    assert log[..j + 1][..j] == log[..j];
    if forall k :: i < k < j ==> !log[k].OutOfService? {
      SensePrefix(log, i + 1);
      assert log[..i + 1][..i] == log[..i];
      StaysUp(log, i + 1, j);
    }
  }
}
