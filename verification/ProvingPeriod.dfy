/** What completing the proving period means, and how often it may be retried. */
module ProvingPeriod {
  import opened Basics
  import opened Monitor
  import opened SignalUnits
  import opened LinkControl
  import opened LinkInvariants

  /**
   * A link with what an observer counts: ticks and errored units since proving was last
   * entered, the period and threshold chosen then, and since the last start how often
   * proving was entered and how often an abort led back to Aligned. `overflowed` is set if
   * the attempt counter ever wraps.
   */
  datatype Watch = Watch(
    link: LinkState,
    ticks: nat,
    errors: nat,
    period: u32,
    threshold: u32,
    entries: nat,
    retries: nat,
    overflowed: bool)

  /** The operations that enter proving. */
  predicate EntersProving(s: LinkState, op: LinkOp) {
    op.ReceiveOp? && op.su.Lssu? &&
    match s.state
    case Aligned => op.su.status.NormalAlignment? || op.su.status.EmergencyAlignment?
    case Proving => op.su.status.EmergencyAlignment?
    case _ => false
  }

  predicate Restarts(s: LinkState, op: LinkOp) {
    op.StartOp? && s.state.OutOfService?
  }

  /** The period and threshold of an alignment that is emergency or not. */
  function ChosenFor(config: LinkConfig, emergency: bool): (u32, u32) {
    if emergency then (config.t4ProvingEmergency, config.aermThresholdEmergency)
    else (config.t4ProvingNormal, config.aermThresholdNormal)
  }

  function Reentered(w: Watch, link': LinkState): Watch {
    var (period, threshold) := ChosenFor(link'.config, link'.emergency);
    Watch(link', 0, 0, period, threshold, w.entries + 1, w.retries, w.overflowed || w.entries == U32_MAX)
  }

  function WatchStep(w: Watch, op: LinkOp): Watch {
    var link' := Step(w.link, op);
    if EntersProving(w.link, op) then
      Reentered(w, link')
    else if Restarts(w.link, op) then
      w.(link := link', entries := 0, retries := 0)
    else if w.link.state.Proving? && op.TickOp? then
      w.(link := link', ticks := w.ticks + 1)
    else if w.link.state.Proving? && op.CorruptedOp? then
      w.(link := link',
         errors := w.errors + 1,
         retries := if link'.state.Aligned? then w.retries + 1 else w.retries)
    else
      w.(link := link')
  }

  function WatchRun(config: LinkConfig, ops: seq<LinkOp>): Watch {
    if ops == [] then Watch(NewLink(config), 0, 0, 0, 0, 0, 0, false)
    else WatchStep(WatchRun(config, ops[..|ops| - 1]), ops[|ops| - 1])
  }

  function AtLeastOne(n: nat): nat {
    if n == 0 then 1 else n
  }

  /** While proving, T4 and the monitor hold exactly what the observer counts. */
  ghost predicate Observed(w: Watch) {
    w.link.state.Proving? ==>
      && w.ticks < AtLeastOne(w.period)
      && w.link.timers.t4 == Some(w.period - w.ticks)
      && w.errors < AtLeastOne(w.threshold)
      && w.link.aerm == AermState(w.errors, w.threshold)
  }

  /** Each return to Aligned used up an entry, and was only allowed below the limit. */
  ghost predicate Counted(w: Watch) {
    !w.overflowed ==>
      && w.link.provingAttempt == w.entries
      && w.retries + (if w.link.state.Proving? then 1 else 0) <= w.entries
      && w.retries <= (if w.link.config.provingAttempts == 0 then 0 else w.link.config.provingAttempts - 1)
  }

  /** A fresh attempt at the period and threshold of the emergency flag as it is now. */
  predicate JustEntered(s: LinkState, s': LinkState) {
    var (period, threshold) := ChosenFor(s'.config, s'.emergency);
    && s'.state.Proving? && s'.config == s.config
    && s'.timers.t4 == Some(period) && s'.aerm == AermState(0, threshold)
    && s'.provingAttempt == WrappingInc(s.provingAttempt)
  }

  lemma EnterProvingEffect(s: LinkState)
    ensures JustEntered(s, EnterProving(s))
  {
  }

  lemma EnteringEffect(s: LinkState, su: SignalUnit)
    requires EntersProving(s, ReceiveOp(su))
    ensures JustEntered(s, Receive(s, su))
  {
    var s1 := Upgraded(s, su.status);
    if s.state.Aligned? {
      EnterProvingEffect(s1.(timers := s1.timers.(t3 := None)));
      assert Receive(s, su) == AlignedLssu(s1, su.status);
    } else {
      EnterProvingEffect(s1);
      assert Receive(s, su) == ProvingLssu(s1, su.status);
    }
  }

  predicate SameProving(s: LinkState, s': LinkState) {
    && s'.provingAttempt == s.provingAttempt && s'.config == s.config
    && (s'.state.Proving? ==>
          s.state.Proving? && s'.aerm == s.aerm && s'.timers.t4 == s.timers.t4)
  }

  predicate Ready(s: LinkState) {
    s.state.AlignedReady? || s.state.AlignedNotReady?
  }

  lemma NotAlignedStays(s: LinkState, status: Status)
    requires s.state.NotAligned?
    ensures SameProving(s, NotAlignedLssu(s, status)) && !Ready(NotAlignedLssu(s, status))
  {
  }

  lemma AlignedStays(s: LinkState, status: Status)
    requires s.state.Aligned? && !status.NormalAlignment? && !status.EmergencyAlignment?
    ensures SameProving(s, AlignedLssu(s, status)) && !Ready(AlignedLssu(s, status))
  {
  }

  lemma ProvingStays(s: LinkState, status: Status)
    requires s.state.Proving? && !status.EmergencyAlignment?
    ensures SameProving(s, ProvingLssu(s, status)) && !Ready(ProvingLssu(s, status))
  {
  }

  lemma ReadyStays(s: LinkState, status: Status)
    requires Ready(s)
    ensures SameProving(s, ReadyLssu(s, status))
  {
  }

  lemma ServingStays(s: LinkState, status: Status)
    requires s.Serving()
    ensures SameProving(s, ServingLssu(s, status)) && !Ready(ServingLssu(s, status))
  {
    match status
    case ProcessorOutage => assert ServingLssu(s, status).state == s.state;
    case Busy => assert Congested(s).state == s.state;
    case _ => assert ServingLssu(s, status).state.OutOfService?;
  }

  lemma LssuSameProving(s: LinkState, status: Status)
    requires !(s.state.Aligned? && (status.NormalAlignment? || status.EmergencyAlignment?))
    requires !(s.state.Proving? && status.EmergencyAlignment?)
    ensures SameProving(s, ReceiveLssu(s, status))
    ensures !Ready(s) ==> !Ready(ReceiveLssu(s, status))
  {
    match s.state
    case OutOfService =>
    case NotAligned => NotAlignedStays(Upgraded(s, status), status);
    case Aligned => AlignedStays(Upgraded(s, status), status);
    case Proving => ProvingStays(Upgraded(s, status), status);
    case AlignedReady => ReadyStays(s, status);
    case AlignedNotReady => ReadyStays(s, status);
    case InService => ServingStays(s, status);
    case ProcessorOutage => ServingStays(s, status);
  }

  lemma TrafficSameProving(s: LinkState, su: SignalUnit)
    ensures SameProving(s, ReceiveFisuOrMsu(s, su))
    ensures !Ready(s) ==> !Ready(ReceiveFisuOrMsu(s, su))
  {
    if s.state.AlignedReady? {
      assert SamePhase(EnterInService(s), ReceiveFisuOrMsu(s, su));
    } else if s.Serving() {
      assert SamePhase(s, ReceiveFisuOrMsu(s, su));
    }
  }

  lemma ReceiveSameProving(s: LinkState, su: SignalUnit)
    requires !EntersProving(s, ReceiveOp(su))
    ensures SameProving(s, Receive(s, su))
    ensures !Ready(s) ==> !Ready(Receive(s, su))
  {
    var s1 := if s.Serving() then s.(suerm := RecordSu(s.suerm, false)) else s;
    if s1.Serving() && s1.suerm.failed {
      assert Receive(s, su) == FailOutOfService(s1, SuermFailure);
    } else if su.Lssu? {
      LssuSameProving(s1, su.status);
      assert Receive(s, su) == ReceiveLssu(s1, su.status);
    } else {
      TrafficSameProving(s1, su);
      assert Receive(s, su) == ReceiveFisuOrMsu(s1, su);
    }
  }

  predicate Idle(s: LinkState, s': LinkState) {
    && s'.provingAttempt == s.provingAttempt && s'.config == s.config
    && !s'.state.Proving? && (Ready(s') ==> Ready(s))
  }

  lemma IdleHearing(s: LinkState)
    requires !s.state.Proving?
    ensures Idle(s, TickHearing(s).0)
  {
  }

  lemma IdleProving(s: LinkState)
    requires !s.state.Proving?
    ensures Idle(s, TickProving(s).0)
  {
  }

  lemma IdleService(s: LinkState)
    requires !s.state.Proving?
    ensures Idle(s, TickService(s))
  {
  }

  lemma IdleTick(s: LinkState)
    requires !s.state.Proving?
    ensures Idle(s, Tick(s))
  {
    IdleHearing(s);
    IdleProving(TickHearing(s).0);
    IdleService(TickProving(TickHearing(s).0).0);
  }

  predicate ProvingTicked(s: LinkState, s': LinkState)
    requires s.timers.t4.Some?
  {
    && s'.provingAttempt == s.provingAttempt && s'.config == s.config && s'.aerm == s.aerm
    && if s.timers.t4.value <= 1
       then s'.state == if s.localOutage then AlignedNotReady else AlignedReady
       else s'.state.Proving? && s'.timers.t4 == Some(s.timers.t4.value - 1)
  }

  /** A tick of proving completes it exactly when T4 has at most one tick left. */
  lemma ProvingTick(s: LinkState)
    requires s.state.Proving? && LinkOk(s)
    ensures ProvingTicked(s, Tick(s))
  {
    var (s1, heard) := TickHearing(s);
    assert !heard && s1.state.Proving? && s1.timers.t4 == s.timers.t4 && s1.aerm == s.aerm;
    var (s2, proved) := TickProving(s1);
    assert proved <==> s.timers.t4.value <= 1;
    if !proved {
      assert TickService(s2).state.Proving? && TickService(s2).timers.t4 == s2.timers.t4;
    }
  }

  /** An errored unit counts in proving, and at the threshold ends the attempt. */
  predicate CorruptedResult(s: LinkState, s': LinkState) {
    && s'.provingAttempt == s.provingAttempt && s'.config == s.config
    && (!s.state.Proving? ==> Idle(s, s'))
    && (s.state.Proving? ==>
          if !AermError(s.aerm).Tripped()
          then s' == s.(aerm := AermError(s.aerm))
          else s'.state == if s.provingAttempt < s.config.provingAttempts
                           then Aligned else Mtp2State.OutOfService)
  }

  lemma CorruptedEffect(s: LinkState)
    ensures CorruptedResult(s, ReceiveCorrupted(s))
  {
    var s' := ReceiveCorrupted(s);
    if s.state.Proving? {
      var s1 := s.(aerm := AermError(s.aerm));
      assert s1.aerm.Tripped() ==> s' == ProvingAborted(s1);
    } else {
      assert Idle(s, s');
    }
  }

  ghost predicate Watched(w: Watch) {
    Observed(w) && Counted(w)
  }

  lemma SameProvingWatched(w: Watch, link': LinkState)
    requires Observed(w) && Counted(w) && SameProving(w.link, link')
    ensures Observed(w.(link := link')) && Counted(w.(link := link'))
  {
  }

  lemma ReceiveWatched(w: Watch, su: SignalUnit)
    requires Watched(w) && !EntersProving(w.link, ReceiveOp(su))
    ensures Watched(WatchStep(w, ReceiveOp(su)))
  {
    ReceiveSameProving(w.link, su);
    SameProvingWatched(w, Receive(w.link, su));
  }

  lemma ProvingTickWatched(w: Watch, link': LinkState)
    requires LinkOk(w.link) && Watched(w) && w.link.state.Proving? && ProvingTicked(w.link, link')
    ensures Watched(w.(link := link', ticks := w.ticks + 1))
  {
  }

  lemma TickWatched(w: Watch)
    requires LinkOk(w.link) && Watched(w)
    ensures Watched(WatchStep(w, TickOp))
  {
    if w.link.state.Proving? {
      ProvingTick(w.link);
      ProvingTickWatched(w, Tick(w.link));
    } else {
      IdleTick(w.link);
      SameProvingWatched(w, Tick(w.link));
    }
  }

  lemma TransmitStays(s: LinkState, s': LinkState)
    requires OnlyTransmits(s, s')
    ensures SameProving(s, s') && s'.state == s.state
  {
  }

  lemma StopStays(s: LinkState)
    ensures SameProving(s, Stop(s)) && !Ready(Stop(s))
  {
  }

  lemma OutageStays(s: LinkState)
    ensures SameProving(s, LocalOutage(s)) && (Ready(LocalOutage(s)) ==> Ready(s))
  {
  }

  lemma RecoveryStays(s: LinkState)
    ensures SameProving(s, LocalRecovery(s)) && (Ready(LocalRecovery(s)) ==> Ready(s))
  {
  }

  lemma SubmissionStays(s: LinkState, m: Msu)
    ensures SameProving(s, Submission(s, m).0) && Submission(s, m).0.state == s.state
  {
  }

  lemma PollEventStays(s: LinkState)
    ensures SameProving(s, Step(s, PollEventOp)) && Step(s, PollEventOp).state == s.state
  {
  }

  lemma OtherStepsStay(s: LinkState, op: LinkOp)
    requires !op.ReceiveOp? && !op.CorruptedOp? && !op.TickOp? && !op.StartOp?
    ensures SameProving(s, Step(s, op)) && (Ready(Step(s, op)) ==> Ready(s))
  {
    match op
    case StopOp => StopStays(s);
    case LocalOutageOp => OutageStays(s);
    case LocalRecoveryOp => RecoveryStays(s);
    case SubmitOp(m) => SubmissionStays(s, m);
    case TransmitOp => TransmitStays(s, Transmit(s).0);
    case SetEmergencyOp(e) =>
    case LocalBusyOp(busy) =>
    case PollEventOp => PollEventStays(s);
  }

  lemma OtherWatched(w: Watch, op: LinkOp)
    requires Watched(w) && !op.ReceiveOp? && !op.CorruptedOp? && !op.TickOp? && !op.StartOp?
    ensures Watched(WatchStep(w, op))
  {
    OtherStepsStay(w.link, op);
    SameProvingWatched(w, Step(w.link, op));
  }

  lemma EnteredWatched(w: Watch, link': LinkState)
    requires Counted(w) && JustEntered(w.link, link')
    ensures Observed(Reentered(w, link')) && Counted(Reentered(w, link'))
  {
  }

  lemma CorruptedWatched(w: Watch, link': LinkState)
    requires LinkOk(w.link) && Observed(w) && Counted(w) && CorruptedResult(w.link, link')
    ensures var w' := if w.link.state.Proving?
                      then w.(link := link', errors := w.errors + 1,
                              retries := if link'.state.Aligned? then w.retries + 1 else w.retries)
                      else w.(link := link');
            Observed(w') && Counted(w')
  {
  }

  lemma StartEffect(s: LinkState)
    ensures if s.state.OutOfService?
            then Start(s).provingAttempt == 0 && Start(s).state.NotAligned? && Start(s).config == s.config
            else Start(s) == s
  {
  }

  lemma WatchKept(w: Watch, op: LinkOp)
    requires LinkOk(w.link) && Watched(w)
    ensures Watched(WatchStep(w, op))
  {
    if EntersProving(w.link, op) {
      EnteringEffect(w.link, op.su);
      EnteredWatched(w, Step(w.link, op));
    } else {
      match op
      case ReceiveOp(su) => ReceiveWatched(w, su);
      case CorruptedOp =>
        CorruptedEffect(w.link);
        CorruptedWatched(w, Step(w.link, op));
      case TickOp => TickWatched(w);
      case StartOp => StartEffect(w.link);
      case _ => OtherWatched(w, op);
    }
  }

  lemma {:induction false} WatchInvariant(config: LinkConfig, ops: seq<LinkOp>)
    ensures var w := WatchRun(config, ops);
            w.link == LinkRun(config, ops).link && Observed(w) && Counted(w)
  {
    if ops != [] {
      WatchInvariant(config, ops[..|ops| - 1]);
      LinkInvariant(config, ops[..|ops| - 1]);
      WatchKept(WatchRun(config, ops[..|ops| - 1]), ops[|ops| - 1]);
    }
  }

  /** Only proving, or a local outage or its end in a ready state, makes a link ready. */
  lemma ReadyOnlyThroughProving(s: LinkState, op: LinkOp)
    requires !s.state.Proving? && !Ready(s)
    ensures !Ready(Step(s, op))
  {
    if EntersProving(s, op) {
      EnteringEffect(s, op.su);
    } else {
      match op
      case ReceiveOp(su) => ReceiveSameProving(s, su);
      case CorruptedOp => CorruptedEffect(s);
      case TickOp => IdleTick(s);
      case StartOp => StartEffect(s);
      case _ => OtherStepsStay(s, op);
    }
  }

  /** Only the last tick of T4 leads from proving to readiness. */
  lemma ReadyAfterProving(s: LinkState, op: LinkOp)
    requires LinkOk(s) && s.state.Proving?
    ensures Ready(Step(s, op)) <==> op.TickOp? && s.timers.t4.value <= 1
  {
    if EntersProving(s, op) {
      EnteringEffect(s, op.su);
    } else {
      match op
      case TickOp => ProvingTick(s);
      case CorruptedOp => CorruptedEffect(s);
      case ReceiveOp(su) => ReceiveSameProving(s, su);
      case StartOp => StartEffect(s);
      case _ => OtherStepsStay(s, op);
    }
  }

  /**
   * Proving soundness: in every run, a step leaves proving for a ready state iff it is the
   * tick that makes max(1, T4) ticks since proving was last entered, and then fewer errored
   * units than that attempt's threshold (none when the threshold is zero) were reported.
   */
  lemma ProvingIsSound(config: LinkConfig, ops: seq<LinkOp>, op: LinkOp)
    requires WatchRun(config, ops).link.state.Proving?
    ensures var w := WatchRun(config, ops);
            && (Ready(Step(w.link, op)) <==> op.TickOp? && w.ticks + 1 == AtLeastOne(w.period))
            && w.errors < AtLeastOne(w.threshold)
  {
    WatchInvariant(config, ops);
    LinkInvariant(config, ops);
    ReadyAfterProving(WatchRun(config, ops).link, op);
  }

  /** From one start, at most max(0, attempts - 1) aborts lead back to Aligned. */
  lemma RetriesAreLimited(config: LinkConfig, ops: seq<LinkOp>)
    requires !WatchRun(config, ops).overflowed
    ensures var w := WatchRun(config, ops);
            w.retries <= (if config.provingAttempts == 0 then 0 else config.provingAttempts - 1)
  {
    WatchInvariant(config, ops);
    LinkInvariant(config, ops);
  }
}
