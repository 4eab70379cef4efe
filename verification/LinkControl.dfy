/** The signalling-link state machine: what each primitive does, as functions of its state. */
module LinkControl {
  import opened Basics
  import opened Retransmission
  import opened Monitor
  import opened SignalUnits

  datatype Mtp2State =
    | OutOfService
    | NotAligned
    | Aligned
    | Proving
    | AlignedReady
    | AlignedNotReady
    | InService
    | ProcessorOutage

  datatype OutOfServiceReason =
    | Stopped
    | ReceivedSios
    | AlignmentLost
    | SuermFailure
    | T6Expired
    | T7Expired

  datatype AlignmentFailure = AermTripped | ReceivedSios | T2Expired | T3Expired | T1Expired

  datatype Event =
    | InService
    | OutOfService(reason: OutOfServiceReason)
    | AlignmentFailed(failure: AlignmentFailure)
    | MsuReceived(msu: Msu)
    | RemoteProcessorOutage
    | RemoteProcessorRecovered
    | RemoteBusy
    | RemoteBusyEnded
    | RetransmissionRequested

  datatype LinkConfig = LinkConfig(
    scheme: Scheme,
    emergency: bool,
    t1AlignedReady: u32,
    t2NotAligned: u32,
    t3Aligned: u32,
    t4ProvingNormal: u32,
    t4ProvingEmergency: u32,
    t6RemoteCongestion: u32,
    t7ExcessiveDelay: u32,
    aermThresholdNormal: u32,
    aermThresholdEmergency: u32,
    suermThreshold: u32,
    suermInterval: u32,
    provingAttempts: u32)

  /** Remaining ticks; None when stopped. */
  type Timer = Option<u32>

  datatype Timers = Timers(t1: Timer, t2: Timer, t3: Timer, t4: Timer, t6: Timer, t7: Timer)

  const STOPPED := Timers(None, None, None, None, None, None)

  datatype LinkState = LinkState(
    config: LinkConfig,
    state: Mtp2State,
    active: bool,
    emergency: bool,
    localOutage: bool,
    remoteOutage: bool,
    localBusy: bool,
    remoteBusy: bool,
    provingAttempt: u32,
    tx: TxState,
    rx: RxState,
    aerm: AermState,
    suerm: SuermState,
    timers: Timers,
    events: seq<Event>)
  {
    /** Carrying traffic, or holding it during a local processor outage. */
    predicate Serving() {
      state.InService? || state.ProcessorOutage?
    }
  }

  function NewLink(config: LinkConfig): LinkState {
    LinkState(config, Mtp2State.OutOfService, false, config.emergency, false, false, false, false, 0,
              NewTx(config.scheme), NewRx(config.scheme),
              AermState(0, config.aermThresholdNormal),
              NewSuerm(config.suermThreshold, config.suermInterval),
              STOPPED, [])
  }

  function Emit(s: LinkState, e: Event): LinkState {
    s.(events := s.events + [e])
  }

  function StopAllTimers(s: LinkState): LinkState {
    s.(timers := STOPPED)
  }

  /** The configuration and both error-correction controllers are untouched. */
  predicate SameControllers(s: LinkState, s': LinkState) {
    s'.tx == s.tx && s'.rx == s.rx && s'.config == s.config
  }

  /** The state machine has not moved and no proving attempt has been made. */
  predicate SamePhase(s: LinkState, s': LinkState) {
    s'.state == s.state && s'.provingAttempt == s.provingAttempt
  }

  // ---- State helpers ----

  function Proving(s: LinkState): (u32, u32) {
    if s.emergency then (s.config.t4ProvingEmergency, s.config.aermThresholdEmergency)
    else (s.config.t4ProvingNormal, s.config.aermThresholdNormal)
  }

  /** The attempt counter is a u32: release builds wrap it, debug builds stop there. */
  function WrappingInc(n: u32): u32 {
    if n == U32_MAX then 0 else n + 1
  }

  function EnterProving(s: LinkState): (s': LinkState)
    ensures SameControllers(s, s')
  {
    var (period, threshold) := Proving(s);
    s.(state := Mtp2State.Proving,
       provingAttempt := WrappingInc(s.provingAttempt),
       aerm := AermState(0, threshold),
       timers := s.timers.(t4 := Some(period)))
  }

  function ProvingSucceeded(s: LinkState): (s': LinkState)
    ensures SameControllers(s, s')
  {
    if s.localOutage then s.(timers := s.timers.(t4 := None), state := AlignedNotReady)
    else s.(timers := s.timers.(t4 := None, t1 := Some(s.config.t1AlignedReady)), state := AlignedReady)
  }

  function FailAlignment(s: LinkState, failure: AlignmentFailure): (s': LinkState)
    ensures SameControllers(s, s')
  {
    Emit(StopAllTimers(s).(state := Mtp2State.OutOfService), AlignmentFailed(failure))
  }

  function BackToAligned(s: LinkState): (s': LinkState)
    ensures SameControllers(s, s')
  {
    s.(timers := s.timers.(t4 := None, t3 := Some(s.config.t3Aligned)), state := Aligned)
  }

  function ProvingAborted(s: LinkState): (s': LinkState)
    ensures SameControllers(s, s')
  {
    if s.provingAttempt < s.config.provingAttempts then BackToAligned(s)
    else FailAlignment(s, AermTripped)
  }

  function EnterInService(s: LinkState): (s': LinkState)
    ensures SameControllers(s, s')
  {
    Emit(s.(timers := s.timers.(t1 := None), suerm := ResetSuerm(s.suerm), state := Mtp2State.InService), Event.InService)
  }

  /** Forget the peer's outage and congestion, and local congestion. */
  function ClearConditions(s: LinkState): (s': LinkState)
    ensures SameControllers(s, s')
  {
    s.(remoteOutage := false, remoteBusy := false, localBusy := false)
  }

  function FailOutOfService(s: LinkState, reason: OutOfServiceReason): (s': LinkState)
    ensures SameControllers(s, s')
  {
    Emit(StopAllTimers(ClearConditions(s)).(state := Mtp2State.OutOfService), Event.OutOfService(reason))
  }

  // ---- MTP3 and management primitives ----

  /** Fresh sequence states and monitors; MSUs queued before are dropped. */
  function RenewControllers(s: LinkState): LinkState {
    s.(tx := NewTx(s.config.scheme),
       rx := NewRx(s.config.scheme),
       suerm := ResetSuerm(s.suerm),
       aerm := AermState(0, s.config.aermThresholdNormal))
  }

  function ResetFlags(s: LinkState): LinkState {
    ClearConditions(s).(active := true, emergency := s.config.emergency, provingAttempt := 0)
  }

  /** Waiting to hear the peer, guarded by T2 alone. */
  function Awaiting(s: LinkState): LinkState {
    s.(timers := STOPPED.(t2 := Some(s.config.t2NotAligned)), state := NotAligned)
  }

  function Start(s: LinkState): LinkState {
    if !s.state.OutOfService? then s
    else Awaiting(RenewControllers(ResetFlags(s)))
  }

  function Stop(s: LinkState): (s': LinkState)
    ensures SameControllers(s, s')
  {
    Emit(StopAllTimers(s).(active := false, state := Mtp2State.OutOfService), Event.OutOfService(Stopped))
  }

  function LocalOutage(s: LinkState): (s': LinkState)
    ensures SameControllers(s, s') && s'.events == s.events
  {
    var out := s.(localOutage := true);
    if s.state.InService? then out.(state := Mtp2State.ProcessorOutage)
    else if s.state.AlignedReady? then out.(timers := s.timers.(t1 := None), state := AlignedNotReady)
    else out
  }

  function LocalRecovery(s: LinkState): (s': LinkState)
    ensures SameControllers(s, s') && s'.events == s.events
  {
    var back := s.(localOutage := false);
    if s.state.ProcessorOutage? then back.(state := Mtp2State.InService)
    else if s.state.AlignedNotReady? then
      back.(timers := s.timers.(t1 := Some(s.config.t1AlignedReady)), state := AlignedReady)
    else back
  }

  function Submission(s: LinkState, m: Msu): (LinkState, Result<()>) {
    if m.Octets() > MAX_MSU_BODY then (s, Err(MsuTooLarge(m.Octets())))
    else (s.(tx := SubmitMsu(s.tx, m)), Ok(()))
  }

  // ---- Outbound ----

  function ControlHeader(s: LinkState): SuHeader {
    SuHeader(s.rx.lastReceived, s.rx.bib, s.tx.lastFsn, s.tx.fib)
  }

  function ControlUnit(s: LinkState, status: Status): SignalUnit {
    MakeLssu(ControlHeader(s), status)
  }

  function AlignmentStatus(s: LinkState): Status {
    if s.emergency then EmergencyAlignment else NormalAlignment
  }

  /** Traffic is polled only in service, without local congestion or a peer that must be spared. */
  predicate Polls(s: LinkState) {
    s.state.InService? && !s.localBusy && !s.remoteOutage && !s.remoteBusy
  }

  /** The unit for a polled frame; a body too large would fall back to a fill-in unit. */
  function FrameUnit(s: LinkState, frame: TxFrame): SignalUnit {
    var header := SuHeader(s.rx.lastReceived, s.rx.bib, frame.fsn, frame.fib);
    match frame.body
    case Fill => Fisu(header)
    case Message(m) =>
      match MakeMsu(header, m)
      case Ok(su) => su
      case Err(_) => Fisu(header)
  }

  /** The unit a link that does not poll traffic sends. */
  function HeldUnit(s: LinkState): SignalUnit {
    match s.state
    case OutOfService => ControlUnit(s, Status.OutOfService)
    case NotAligned => ControlUnit(s, OutOfAlignment)
    case Aligned => ControlUnit(s, AlignmentStatus(s))
    case Proving => ControlUnit(s, AlignmentStatus(s))
    case AlignedNotReady => ControlUnit(s, Status.ProcessorOutage)
    case ProcessorOutage => ControlUnit(s, Status.ProcessorOutage)
    case AlignedReady => Fisu(ControlHeader(s))
    case InService => if s.localBusy then ControlUnit(s, Busy) else Fisu(ControlHeader(s))
  }

  /** T7 guards outstanding MSUs while in service. */
  function GuardDelay(s: LinkState): LinkState {
    if s.state.InService? && s.tx.unacked != [] && s.timers.t7.None?
    then s.(timers := s.timers.(t7 := Some(s.config.t7ExcessiveDelay)))
    else s
  }

  /** Nothing but what is queued and the guard on it changes. */
  predicate OnlyTransmits(s: LinkState, s': LinkState) {
    s' == s.(tx := s'.tx, timers := s.timers.(t7 := s'.timers.t7))
  }

  function Transmit(s: LinkState): (r: (LinkState, Option<SignalUnit>))
    ensures OnlyTransmits(s, r.0)
  {
    if s.state.OutOfService? && !s.active then (s, None)
    else if Polls(s) then
      var (tx', frame) := PollTx(s.tx);
      (GuardDelay(s.(tx := tx')), Some(FrameUnit(s, frame)))
    else
      (GuardDelay(s), Some(HeldUnit(s)))
  }

  // ---- Inbound ----

  /** The peer is congested: T6 restarts on every such indication. */
  function Congested(s: LinkState): (s': LinkState)
    ensures SameControllers(s, s')
  {
    (if s.remoteBusy then s else Emit(s.(remoteBusy := true), RemoteBusy)).(
      timers := s.timers.(t6 := Some(s.config.t6RemoteCongestion)))
  }

  /** Before service a status unit moves alignment on unseen, or ends it and says so. */
  predicate StillAligning(s: LinkState, s': LinkState) {
    || (s'.events == s.events && (s'.state == s.state || s'.state.Aligned? || s'.state.Proving?))
    || (&& s'.events == s.events + [AlignmentFailed(AlignmentFailure.ReceivedSios)]
        && s'.state.OutOfService?)
  }

  /** A status unit while waiting to hear the peer. */
  function NotAlignedLssu(s: LinkState, status: Status): (s': LinkState)
    ensures SameControllers(s, s') && StillAligning(s, s')
  {
    if status.OutOfAlignment? || status.NormalAlignment? || status.EmergencyAlignment? then
      s.(timers := s.timers.(t2 := None, t3 := Some(s.config.t3Aligned)), state := Aligned)
    else s
  }

  /** A status unit while waiting for the peer to prove. */
  function AlignedLssu(s: LinkState, status: Status): (s': LinkState)
    ensures SameControllers(s, s') && StillAligning(s, s')
  {
    if status.NormalAlignment? || status.EmergencyAlignment? then
      EnterProving(s.(timers := s.timers.(t3 := None)))
    else if status.OutOfService? then FailAlignment(s, AlignmentFailure.ReceivedSios)
    else s
  }

  /** A status unit while proving: SIE starts a new, shorter attempt. */
  function ProvingLssu(s: LinkState, status: Status): (s': LinkState)
    ensures SameControllers(s, s') && StillAligning(s, s')
  {
    if status.EmergencyAlignment? then EnterProving(s)
    else if status.OutOfAlignment? then BackToAligned(s)
    else if status.OutOfService? then FailAlignment(s, AlignmentFailure.ReceivedSios)
    else s
  }

  /** A status unit after proving, before service. */
  function ReadyLssu(s: LinkState, status: Status): (s': LinkState)
    ensures SameControllers(s, s')
  {
    if status.OutOfService? then FailAlignment(s, AlignmentFailure.ReceivedSios)
    else if status.ProcessorOutage? && s.state.AlignedReady? then
      Emit(EnterInService(s).(remoteOutage := true), RemoteProcessorOutage)
    else s
  }

  function ServingLssu(s: LinkState, status: Status): (s': LinkState)
    ensures SameControllers(s, s')
  {
    match status
    case ProcessorOutage =>
      if s.remoteOutage then s else Emit(s.(remoteOutage := true), RemoteProcessorOutage)
    case Busy => Congested(s)
    case OutOfService => FailOutOfService(s, OutOfServiceReason.ReceivedSios)
    case _ => FailOutOfService(s, AlignmentLost)
  }

  /** SIE upgrades the alignment to emergency in any phase before Aligned Ready. */
  function Upgraded(s: LinkState, status: Status): LinkState {
    if status.EmergencyAlignment? then s.(emergency := true) else s
  }

  function ReceiveLssu(s: LinkState, status: Status): (s': LinkState)
    ensures SameControllers(s, s')
  {
    match s.state
    case OutOfService => s
    case NotAligned => NotAlignedLssu(Upgraded(s, status), status)
    case Aligned => AlignedLssu(Upgraded(s, status), status)
    case Proving => ProvingLssu(Upgraded(s, status), status)
    case AlignedReady => ReadyLssu(s, status)
    case AlignedNotReady => ReadyLssu(s, status)
    case InService => ServingLssu(s, status)
    case ProcessorOutage => ServingLssu(s, status)
  }

  function ApplyAck(s: LinkState, header: SuHeader): LinkState {
    var tx' := AckTx(s.tx, header.bsn, header.bib);
    s.(tx := tx',
       timers := s.timers.(t7 := if tx'.unacked == [] then None else Some(s.config.t7ExcessiveDelay)))
  }

  function ClearRemote(s0: LinkState): (s': LinkState)
    ensures SameControllers(s0, s') && SamePhase(s0, s')
  {
    var s := if s0.remoteOutage then Emit(s0.(remoteOutage := false), RemoteProcessorRecovered) else s0;
    if s.remoteBusy then Emit(s.(remoteBusy := false, timers := s.timers.(t6 := None)), RemoteBusyEnded) else s
  }

  function CheckMsu(s: LinkState, fsn: octet, m: Msu): (s': LinkState)
    ensures s'.config == s.config && s'.tx == s.tx && SamePhase(s, s')
    ensures !s.state.ProcessorOutage? ==> s'.rx == ReceiveMsu(s.rx, fsn, m).0
  {
    if s.state.ProcessorOutage? then s
    else
      var (rx', outcome) := ReceiveMsu(s.rx, fsn, m);
      var s' := s.(rx := rx');
      match outcome
      case Accepted(accepted) => Emit(s', MsuReceived(accepted))
      case RetransmissionRequested => Emit(s', Event.RetransmissionRequested)
      case Discarded => s'
  }

  /** The controllers after a unit whose acknowledgement was taken, and its MSU if `checked`. */
  predicate ControllersMove(s: LinkState, s': LinkState, su: SignalUnit, checked: bool) {
    && s'.config == s.config
    && s'.tx == AckTx(s.tx, su.header.bsn, su.header.bib)
    && s'.rx == if checked && su.MsuUnit? then ReceiveMsu(s.rx, su.header.fsn, su.msu).0 else s.rx
  }

  function ProcessInService(s: LinkState, su: SignalUnit): (s': LinkState)
    ensures ControllersMove(s, s', su, !s.state.ProcessorOutage?) && SamePhase(s, s')
  {
    var cleared := ClearRemote(ApplyAck(s, su.header));
    if su.MsuUnit? then CheckMsu(cleared, su.header.fsn, su.msu) else cleared
  }

  function ReceiveFisuOrMsu(s: LinkState, su: SignalUnit): (s': LinkState)
    ensures if s.state.AlignedReady? || s.Serving()
            then ControllersMove(s, s', su, !s.state.ProcessorOutage?)
            else s' == s
  {
    if s.state.AlignedReady? then ProcessInService(EnterInService(s), su)
    else if s.Serving() then ProcessInService(s, su)
    else s
  }

  /** Whether a received unit reaches the error-correction controllers at all. */
  predicate Taken(s: LinkState, su: SignalUnit) {
    !su.Lssu? && (s.state.AlignedReady? || (s.Serving() && !RecordSu(s.suerm, false).failed))
  }

  function Receive(s0: LinkState, su: SignalUnit): (s': LinkState)
    ensures if Taken(s0, su)
            then ControllersMove(s0, s', su, !s0.state.ProcessorOutage?)
            else SameControllers(s0, s')
  {
    var s := if s0.Serving() then s0.(suerm := RecordSu(s0.suerm, false)) else s0;
    if s.Serving() && s.suerm.failed then FailOutOfService(s, SuermFailure)
    else if su.Lssu? then ReceiveLssu(s, su.status)
    else ReceiveFisuOrMsu(s, su)
  }

  function ReceiveCorrupted(s: LinkState): (s': LinkState)
    ensures SameControllers(s, s')
  {
    if s.state.Proving? then
      var s' := s.(aerm := AermError(s.aerm));
      if s'.aerm.Tripped() then ProvingAborted(s') else s'
    else if s.Serving() then
      var s' := s.(suerm := RecordSu(s.suerm, true));
      if s'.suerm.failed then FailOutOfService(s', SuermFailure) else s'
    else s
  }

  // ---- Time ----

  function StepTimer(t: Timer): (Timer, bool) {
    match t
    case None => (None, false)
    case Some(remaining) => if remaining <= 1 then (None, true) else (Some(remaining - 1), false)
  }

  /** The guards on hearing the peer: the state after them and whether one has acted. */
  function TickHearing(s0: LinkState): (r: (LinkState, bool))
    ensures SameControllers(s0, r.0)
  {
    var (t2, expired2) := StepTimer(s0.timers.t2);
    var s2 := s0.(timers := s0.timers.(t2 := t2));
    if expired2 && s0.state.NotAligned? then (FailAlignment(s2, T2Expired), true)
    else
      var (t3, expired3) := StepTimer(s0.timers.t3);
      var s3 := s2.(timers := s2.timers.(t3 := t3));
      if expired3 && s0.state.Aligned? then (FailAlignment(s3, T3Expired), true) else (s3, false)
  }

  /** The proving period and the guard on what follows it. */
  function TickProving(s0: LinkState): (r: (LinkState, bool))
    ensures SameControllers(s0, r.0)
  {
    var (t4, expired4) := StepTimer(s0.timers.t4);
    var s4 := s0.(timers := s0.timers.(t4 := t4));
    if expired4 && s0.state.Proving? then (ProvingSucceeded(s4), true)
    else
      var (t1, expired1) := StepTimer(s0.timers.t1);
      var s1 := s4.(timers := s4.timers.(t1 := t1));
      if expired1 && s0.state.AlignedReady? then (FailAlignment(s1, T1Expired), true) else (s1, false)
  }

  /** The guards of a link in service. */
  function TickService(s0: LinkState): (s': LinkState)
    ensures SameControllers(s0, s')
  {
    var (t6, expired6) := StepTimer(s0.timers.t6);
    var s6 := s0.(timers := s0.timers.(t6 := t6));
    if expired6 && s0.Serving() then FailOutOfService(s6, T6Expired)
    else
      var (t7, expired7) := StepTimer(s0.timers.t7);
      var s7 := s6.(timers := s6.timers.(t7 := t7));
      if expired7 && s0.Serving() then FailOutOfService(s7, T7Expired) else s7
  }

  function Tick(s0: LinkState): (s': LinkState)
    ensures SameControllers(s0, s')
  {
    var (s1, heard) := TickHearing(s0);
    if heard then s1
    else
      var (s2, proved) := TickProving(s1);
      if proved then s2 else TickService(s2)
  }

  // ---- Operations of a run ----

  datatype LinkOp =
    | StartOp
    | StopOp
    | SetEmergencyOp(emergency: bool)
    | LocalOutageOp
    | LocalRecoveryOp
    | LocalBusyOp(busy: bool)
    | SubmitOp(msu: Msu)
    | TransmitOp
    | ReceiveOp(su: SignalUnit)
    | CorruptedOp
    | TickOp
    | PollEventOp

  function Step(s: LinkState, op: LinkOp): LinkState {
    match op
    case StartOp => Start(s)
    case StopOp => Stop(s)
    case SetEmergencyOp(e) => s.(emergency := e)
    case LocalOutageOp => LocalOutage(s)
    case LocalRecoveryOp => LocalRecovery(s)
    case LocalBusyOp(busy) => s.(localBusy := busy)
    case SubmitOp(m) => Submission(s, m).0
    case TransmitOp => Transmit(s).0
    case ReceiveOp(su) => Receive(s, su)
    case CorruptedOp => ReceiveCorrupted(s)
    case TickOp => Tick(s)
    case PollEventOp => if s.events == [] then s else s.(events := s.events[1..])
  }
}
