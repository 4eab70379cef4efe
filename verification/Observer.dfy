/**
 * What an observer of one link writes down: only the operations, the states the link reports
 * and its event log. From these alone it tells, before each operation, which events the
 * operation raises, which state it leads to and which unit the link sends.
 */
module Observer {
  import opened Basics
  import opened Monitor
  import opened LeakyBucket
  import opened SignalUnits
  import opened LinkControl
  import opened Deliveries
  import opened LinkInvariants
  import opened ProvingPeriod

  /**
   * The link with its log; what was last asked of it (started, urgent alignment, local outage,
   * local congestion); ticks since its state changed, since a FISU or MSU was heard or the
   * first MSU became outstanding, and since a SIB was heard; in service, which units heard
   * since entry were in error, and whether a SIB or SIPO was heard with no FISU or MSU after
   * it; since the last start, the MSUs queued and how many were reported; and the proving.
   */
  datatype Notes = Notes(
    trace: Trace,
    started: bool,
    urgent: bool,
    outage: bool,
    congested: bool,
    age: nat,
    quiet: nat,
    hush: nat,
    history: seq<bool>,
    peerBusy: bool,
    peerOutage: bool,
    queued: seq<Msu>,
    reported: nat,
    proving: Watch)

  /** What LinkState.Serving says, of a state that the link reports. */
  predicate Serves(state: Mtp2State) {
    state.InService? || state.ProcessorOutage?
  }

  /** A FISU or MSU. */
  predicate HearsTraffic(op: LinkOp) {
    op.ReceiveOp? && !op.su.Lssu?
  }

  predicate HearsStatus(op: LinkOp, status: Status) {
    op.ReceiveOp? && op.su.Lssu? && op.su.status == status
  }

  predicate Aligns(state: Mtp2State) {
    state.NotAligned? || state.Aligned? || state.Proving?
  }

  function NoteUrgent(w: Notes, op: LinkOp): bool {
    if Restarts(w.trace.link, op) then w.trace.link.config.emergency
    else if op.SetEmergencyOp? then op.emergency
    else w.urgent || (HearsStatus(op, EmergencyAlignment) && Aligns(w.trace.link.state))
  }

  /** Congestion ends when told so, at a start, and when the link fails in service. */
  function NoteCongested(w: Notes, op: LinkOp, state': Mtp2State): bool {
    if op.LocalBusyOp? then op.busy
    else w.congested && !Restarts(w.trace.link, op)
         && !(Serves(w.trace.link.state) && !Serves(state') && !op.StopOp?)
  }

  /** The notes after an operation that made the link what trace' says, and reported so many. */
  function NoteNext(w: Notes, op: LinkOp, trace': Trace, reported': nat, proving': Watch): Notes {
    var link := w.trace.link;
    var state, state' := link.state, trace'.link.state;
    var stays := Serves(state) && Serves(state');
    Notes(
      trace',
      if op.StopOp? then false else w.started || Restarts(link, op),
      NoteUrgent(w, op),
      if op.LocalOutageOp? then true else w.outage && !op.LocalRecoveryOp?,
      NoteCongested(w, op, state'),
      if state' != state then 0 else if op.TickOp? then w.age + 1 else w.age,
      if !stays || HearsTraffic(op) || link.tx.unacked == [] then 0
      else if op.TickOp? then w.quiet + 1 else w.quiet,
      if !stays || HearsStatus(op, Busy) then 0 else if op.TickOp? then w.hush + 1 else w.hush,
      if !stays then []
      else if op.ReceiveOp? then w.history + [false]
      else if op.CorruptedOp? then w.history + [true]
      else w.history,
      stays && !HearsTraffic(op) && (w.peerBusy || HearsStatus(op, Busy)),
      Serves(state') && !HearsTraffic(op) && (w.peerOutage || HearsStatus(op, Status.ProcessorOutage)),
      if Restarts(link, op) then []
      else if op.SubmitOp? && op.msu.Octets() <= MAX_MSU_BODY then w.queued + [op.msu]
      else w.queued,
      reported',
      proving')
  }

  /** An operation reports at most one MSU. */
  function NoteReported(w: Notes, op: LinkOp, trace': Trace): nat {
    if Restarts(w.trace.link, op) then 0
    else if |Msus(trace'.Log())| > |Msus(w.trace.Log())| then w.reported + 1
    else w.reported
  }

  function NoteStep(w: Notes, op: LinkOp): Notes {
    var trace' := TraceStep(w.trace, op);
    NoteNext(w, op, trace', NoteReported(w, op, trace'), WatchStep(w.proving, op))
  }

  function NoteRun(config: LinkConfig, ops: seq<LinkOp>): Notes {
    if ops == [] then
      Notes(Trace(NewLink(config), []), false, config.emergency, false, false, 0, 0, 0, [], false, false, [], 0,
            WatchRun(config, []))
    else
      NoteStep(NoteRun(config, ops[..|ops| - 1]), ops[|ops| - 1])
  }

  // ---- What the notes say will happen ----

  /** With one tick more, the period is over; a period of zero takes one tick. */
  predicate Due(elapsed: nat, period: u32) {
    elapsed + 1 >= AtLeastOne(period)
  }

  /** A unit more, in error or not, makes some window of this session exceed its leaks by T. */
  ghost predicate TooManyErrors(w: Notes, inError: bool) {
    var c := w.trace.link.config;
    ErrorBurst(w.history + [inError], Period(c.suermInterval), c.suermThreshold)
  }

  predicate ProvingAborts(w: Notes) {
    w.proving.errors + 1 >= w.proving.threshold
  }

  /** The attempts made count modulo 2^32. */
  predicate MayRetry(w: Notes) {
    w.proving.entries % 0x1_0000_0000 < w.trace.link.config.provingAttempts
  }

  predicate T6Ends(w: Notes) {
    w.peerBusy && Due(w.hush, w.trace.link.config.t6RemoteCongestion)
  }

  predicate T7Ends(w: Notes) {
    w.trace.link.tx.unacked != [] && Due(w.quiet, w.trace.link.config.t7ExcessiveDelay)
  }

  /** The number of an MSU heard, counted from the last one reported in this session. */
  function MsuEvents(w: Notes, fsn: octet, m: Msu): seq<Event> {
    var ahead := (fsn - (w.reported + 127)) % 128;
    if ahead == 1 then [MsuReceived(m)]
    else if w.trace.link.config.scheme.Basic? && ahead < 64 then [Event.RetransmissionRequested]
    else []
  }

  ghost function HeardInService(w: Notes, su: SignalUnit): seq<Event> {
    if TooManyErrors(w, false) then [Event.OutOfService(SuermFailure)]
    else if su.Lssu? then
      match su.status
      case ProcessorOutage => if w.peerOutage then [] else [RemoteProcessorOutage]
      case Busy => if w.peerBusy then [] else [RemoteBusy]
      case OutOfService => [Event.OutOfService(OutOfServiceReason.ReceivedSios)]
      case _ => [Event.OutOfService(AlignmentLost)]
    else
      (if w.peerOutage then [RemoteProcessorRecovered] else [])
      + (if w.peerBusy then [RemoteBusyEnded] else [])
      + (if su.MsuUnit? && w.trace.link.state.InService? then MsuEvents(w, su.header.fsn, su.msu) else [])
  }

  function HeardBefore(w: Notes, su: SignalUnit): seq<Event> {
    var state := w.trace.link.state;
    if su.Lssu? then
      if su.status.OutOfService? && !state.OutOfService? && !state.NotAligned?
      then [AlignmentFailed(AlignmentFailure.ReceivedSios)]
      else if su.status.ProcessorOutage? && state.AlignedReady? then [Event.InService, RemoteProcessorOutage]
      else []
    else if state.AlignedReady? then
      [Event.InService] + (if su.MsuUnit? then MsuEvents(w, su.header.fsn, su.msu) else [])
    else []
  }

  function ServiceTick(w: Notes): seq<Event> {
    if T6Ends(w) then [Event.OutOfService(T6Expired)]
    else if T7Ends(w) then [Event.OutOfService(T7Expired)]
    else []
  }

  function TickEvents(w: Notes): seq<Event> {
    var c := w.trace.link.config;
    match w.trace.link.state
    case NotAligned => if Due(w.age, c.t2NotAligned) then [AlignmentFailed(T2Expired)] else []
    case Aligned => if Due(w.age, c.t3Aligned) then [AlignmentFailed(T3Expired)] else []
    case AlignedReady => if Due(w.age, c.t1AlignedReady) then [AlignmentFailed(T1Expired)] else []
    case InService => ServiceTick(w)
    case ProcessorOutage => ServiceTick(w)
    case _ => []
  }

  ghost function CorruptedEvents(w: Notes): seq<Event> {
    if w.trace.link.state.Proving? then
      if ProvingAborts(w) && !MayRetry(w) then [AlignmentFailed(AermTripped)] else []
    else if Serves(w.trace.link.state) && TooManyErrors(w, true) then [Event.OutOfService(SuermFailure)]
    else []
  }

  /** The events an operation raises, in order. */
  ghost function Expected(w: Notes, op: LinkOp): seq<Event> {
    match op
    case StopOp => [Event.OutOfService(Stopped)]
    case ReceiveOp(su) => if Serves(w.trace.link.state) then HeardInService(w, su) else HeardBefore(w, su)
    case CorruptedOp => CorruptedEvents(w)
    case TickOp => TickEvents(w)
    case _ => []
  }

  ghost function HeardLeads(w: Notes, su: SignalUnit): Mtp2State {
    var state := w.trace.link.state;
    if Serves(state) then
      if TooManyErrors(w, false) then Mtp2State.OutOfService
      else if su.Lssu? && !su.status.ProcessorOutage? && !su.status.Busy? then Mtp2State.OutOfService
      else state
    else if !su.Lssu? then
      if state.AlignedReady? then Mtp2State.InService else state
    else
      match su.status
      case OutOfService => if state.NotAligned? then state else Mtp2State.OutOfService
      case ProcessorOutage => if state.AlignedReady? then Mtp2State.InService else state
      case Busy => state
      case OutOfAlignment => if state.NotAligned? || state.Proving? then Aligned else state
      case NormalAlignment =>
        if state.NotAligned? then Aligned else if state.Aligned? then Mtp2State.Proving else state
      case EmergencyAlignment =>
        if state.NotAligned? then Aligned else if state.Aligned? then Mtp2State.Proving else state
  }

  function TickLeads(w: Notes): Mtp2State {
    if TickEvents(w) != [] then Mtp2State.OutOfService
    else if w.trace.link.state.Proving? && Due(w.proving.ticks, w.proving.period) then
      if w.outage then AlignedNotReady else AlignedReady
    else w.trace.link.state
  }

  /** The state an operation leads to. */
  ghost function Leads(w: Notes, op: LinkOp): Mtp2State {
    var state := w.trace.link.state;
    match op
    case StartOp => if state.OutOfService? then NotAligned else state
    case StopOp => Mtp2State.OutOfService
    case LocalOutageOp =>
      if state.InService? then Mtp2State.ProcessorOutage else if state.AlignedReady? then AlignedNotReady else state
    case LocalRecoveryOp =>
      if state.ProcessorOutage? then Mtp2State.InService else if state.AlignedNotReady? then AlignedReady else state
    case ReceiveOp(su) => HeardLeads(w, su)
    case CorruptedOp =>
      if CorruptedEvents(w) != [] then Mtp2State.OutOfService
      else if state.Proving? && ProvingAborts(w) then Aligned
      else state
    case TickOp => TickLeads(w)
    case _ => state
  }

  /** The status that the next unit tells, if it is an LSSU. */
  function ToldStatus(w: Notes): Option<Status> {
    match w.trace.link.state
    case OutOfService => Some(Status.OutOfService)
    case NotAligned => Some(OutOfAlignment)
    case Aligned => Some(if w.urgent then EmergencyAlignment else NormalAlignment)
    case Proving => Some(if w.urgent then EmergencyAlignment else NormalAlignment)
    case AlignedReady => None
    case AlignedNotReady => Some(Status.ProcessorOutage)
    case InService => if w.congested then Some(Busy) else None
    case ProcessorOutage => Some(Status.ProcessorOutage)
  }

  /** Whether MSUs may be sent, new ones or copies. */
  predicate MayCarry(w: Notes) {
    w.trace.link.state.InService? && !w.congested && !w.peerBusy && !w.peerOutage
  }
}
