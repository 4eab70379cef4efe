/**
 * Which unit a link sends in every run, and what moves its error-correction controllers, told
 * from the operations, the states and the log alone.
 */
module LinkUnits {
  import opened Basics
  import opened Sequence
  import opened Retransmission
  import opened TransmitBuffer
  import opened SignalUnits
  import opened LinkControl
  import opened LinkInvariants
  import opened EventLog
  import opened ProvingPeriod
  import opened Observer
  import opened ObservedLink
  import opened LinkBehaviour

  // ---- Units sent ----

  /** How many of the queued MSUs have been numbered. */
  function Numbered(w: Notes): int {
    |w.queued| - |w.trace.link.tx.pending|
  }

  /** The unit is a queued MSU not yet released, numbered by its place in the queue. */
  ghost predicate SendsQueued(w: Notes, su: SignalUnit) {
    exists k :: Released(w.trace.link.tx, w.queued) <= k <= Numbered(w) && 0 <= k < |w.queued|
      && su.MsuUnit? && su.header.fsn == Fsn(k) && su.msu == w.queued[k]
  }

  /** The unit is what the transmit side polled: this MSU under this number, or a fill-in unit. */
  predicate CarriesFrame(su: SignalUnit, frame: TxFrame) {
    && su.header.fsn == frame.fsn && su.header.fib == frame.fib
    && match frame.body
       case Fill => su.Fisu?
       case Message(m) => su.MsuUnit? && su.msu == m
  }

  ghost predicate SentAsNoted(w: Notes, su: SignalUnit) {
    && su.Lssu? == ToldStatus(w).Some?
    && (su.Lssu? ==> su.status == ToldStatus(w).value && !su.extended)
    && (su.MsuUnit? ==> MayCarry(w) && SendsQueued(w, su))
    && (MayCarry(w) ==> CarriesFrame(su, PollTx(w.trace.link.tx).1))
    && (!su.MsuUnit? ==> Numbered(w) >= 0 && su.header.fsn == FsnBefore(Numbered(w)))
    && su.header.fib == w.trace.link.tx.fib && su.header.bib == w.trace.link.rx.bib
    && (su.header.bsn - (w.reported + 127)) % 128 == 0
  }

  lemma HeldAsNoted(w: Notes)
    requires Matches(w) && !MayCarry(w) && (w.trace.link.state.OutOfService? ==> w.started)
    ensures var out := Transmit(w.trace.link).1; out.Some? && SentAsNoted(w, out.value) && !out.value.MsuUnit?
  {
  }

  lemma FillIsLast(tx: TxState)
    ensures PollTx(tx).1.body.Fill? ==> PollTx(tx).1 == FillFrame(tx)
  {
  }

  lemma FillAsNoted(w: Notes)
    requires Matches(w) && MayCarry(w) && PollTx(w.trace.link.tx).1.body.Fill?
    ensures var out := Transmit(w.trace.link).1; out.Some? && SentAsNoted(w, out.value) && !out.value.MsuUnit?
  {
    FillIsLast(w.trace.link.tx);
  }

  lemma MessageAsNoted(w: Notes, frame: TxFrame, k: nat)
    requires Matches(w) && MayCarry(w) && frame == PollTx(w.trace.link.tx).1
    requires Released(w.trace.link.tx, w.queued) <= k <= Numbered(w) && k < |w.queued|
    requires frame == TxFrame(Fsn(k), w.trace.link.tx.fib, Message(w.queued[k]))
    ensures var out := Transmit(w.trace.link).1; out.Some? && SentAsNoted(w, out.value) && out.value.MsuUnit?
  {
    var out := Transmit(w.trace.link).1;
    assert out == Some(FrameUnit(w.trace.link, frame));
    assert w.queued[k].Octets() <= MAX_MSU_BODY;
  }

  lemma FrameAsNoted(w: Notes)
    requires Matches(w) && MayCarry(w)
    ensures var out := Transmit(w.trace.link).1; out.Some? && SentAsNoted(w, out.value)
  {
    var tx := w.trace.link.tx;
    if PollTx(tx).1.body.Fill? {
      FillAsNoted(w);
    } else {
      PollConserved(tx, w.queued, Released(tx, w.queued));
      MessageAsNoted(w, PollTx(tx).1, Released(tx, w.queued) + SentPosition(tx));
    }
  }

  /**
   * In every run: nothing is sent iff the link is out of service and was not started since it
   * was last stopped. Otherwise a status unit is sent exactly when the notes tell one, and tells that
   * status: SIOS out of service; SIO, and SIN or SIE, in alignment; SIPO with an outage; SIB
   * when congested in service. An MSU is a queued one not released, under its own number. Any
   * other unit carries the last number given, and every unit the last number accepted.
   */
  lemma SendsWhatIsTold(config: LinkConfig, ops: seq<LinkOp>)
    ensures var w, s := NoteRun(config, ops), LinkRun(config, ops).link;
            var out := Transmit(s).1;
            && (out.None? <==> s.state.OutOfService? && !w.started)
            && (out.Some? ==> SentAsNoted(w, out.value))
  {
    var w := NoteRun(config, ops);
    RunMatches(config, ops);
    if MayCarry(w) {
      FrameAsNoted(w);
    } else if w.trace.link.state.OutOfService? && !w.started {
      assert Transmit(w.trace.link).1.None?;
    } else {
      HeldAsNoted(w);
    }
  }

  /** An MSU is sent only in service, without local congestion and with a peer the log tells clear. */
  lemma MsusOnlyWhenClear(config: LinkConfig, ops: seq<LinkOp>)
    requires var out := Transmit(LinkRun(config, ops).link).1; out.Some? && out.value.MsuUnit?
    ensures var w, t := NoteRun(config, ops), LinkRun(config, ops);
            t.link.state.InService? && !w.congested && Replay(t.Log()) == Up(false, false)
  {
    SendsWhatIsTold(config, ops);
    LogTellsWhatWasHeard(config, ops);
    RunMatches(config, ops);
  }

  // ---- What moves the controllers ----

  /** A FISU or MSU heard when it begins service or finds the link in service. */
  ghost predicate Attended(w: Notes, op: LinkOp) {
    HearsTraffic(op) && (w.trace.link.state.AlignedReady? || (Serves(w.trace.link.state) && !TooManyErrors(w, false)))
  }

  /** What an operation asks of the transmit side. */
  ghost function AskedOfTx(w: Notes, op: LinkOp): seq<TxOp> {
    if op.SubmitOp? && op.msu.Octets() <= MAX_MSU_BODY then [TxOp.SubmitOp(op.msu)]
    else if op.TransmitOp? && MayCarry(w) then [PollOp]
    else if Attended(w, op) then [AckOp(op.su.header.bsn, op.su.header.bib)]
    else []
  }

  /** What was asked of the transmit side since the last start. */
  ghost function TxHistory(config: LinkConfig, ops: seq<LinkOp>): seq<TxOp> {
    if ops == [] then []
    else
      var w, op := NoteRun(config, ops[..|ops| - 1]), ops[|ops| - 1];
      if Restarts(w.trace.link, op) then [] else TxHistory(config, ops[..|ops| - 1]) + AskedOfTx(w, op)
  }

  /** The sequence check sees the MSUs attended to, except during a local processor outage. */
  ghost predicate ChecksMsu(w: Notes, op: LinkOp) {
    Attended(w, op) && op.su.MsuUnit? && !w.trace.link.state.ProcessorOutage?
  }

  ghost predicate Driven(w: Notes, op: LinkOp, s': LinkState) {
    var s := w.trace.link;
    if Restarts(s, op) then s'.tx == NewTx(s.config.scheme) && s'.rx == NewRx(s.config.scheme)
    else
      && s'.tx == (var asked := AskedOfTx(w, op); if asked == [] then s.tx else TxStep(s.tx, asked[0]))
      && s'.rx == if ChecksMsu(w, op) then ReceiveMsu(s.rx, op.su.header.fsn, op.su.msu).0 else s.rx
  }

  lemma AttendedIffTaken(w: Notes, su: SignalUnit)
    requires Matches(w)
    ensures Attended(w, ReceiveOp(su)) <==> Taken(w.trace.link, su)
  {
    if Serves(w.trace.link.state) {
      MonitorJudges(w, false);
    }
  }

  lemma ReceiveDrives(w: Notes, su: SignalUnit)
    requires Matches(w)
    ensures Driven(w, ReceiveOp(su), Receive(w.trace.link, su))
  {
    AttendedIffTaken(w, su);
  }

  lemma TransmitDrives(w: Notes)
    requires Matches(w)
    ensures Driven(w, TransmitOp, Transmit(w.trace.link).0)
  {
  }

  lemma SubmissionDrives(w: Notes, m: Msu)
    ensures Driven(w, LinkOp.SubmitOp(m), Submission(w.trace.link, m).0)
  {
  }

  lemma StartDrives(w: Notes)
    ensures Driven(w, StartOp, Start(w.trace.link))
  {
  }

  lemma StepDrives(w: Notes, op: LinkOp)
    requires Matches(w)
    ensures Driven(w, op, Step(w.trace.link, op))
  {
    match op
    case StartOp => StartDrives(w);
    case SubmitOp(m) => SubmissionDrives(w, m);
    case TransmitOp => TransmitDrives(w);
    case ReceiveOp(su) => ReceiveDrives(w, su);
    case _ => ControllersStay(w.trace.link, op);
  }

  lemma OneAskedMore(scheme: Scheme, before: seq<TxOp>, asked: seq<TxOp>)
    requires |asked| <= 1
    ensures TxRun(scheme, before + asked)
         == if asked == [] then TxRun(scheme, before) else TxStep(TxRun(scheme, before), asked[0])
    ensures Submissions(before + asked)
         == Submissions(before) + if asked == [] then [] else SubmittedBy(asked[0])
  {
    if asked == [] {
      assert before + asked == before;
    } else {
      assert (before + asked)[..|before|] == before;
    }
  }

  /** The transmit side of the link is the one this history makes. */
  ghost predicate RunsTx(w: Notes, history: seq<TxOp>) {
    w.trace.link.tx == TxRun(w.trace.link.config.scheme, history) && w.queued == Submissions(history)
  }

  lemma TxFollows(w: Notes, op: LinkOp, w': Notes, history: seq<TxOp>)
    requires RunsTx(w, history) && Driven(w, op, w'.trace.link)
    requires w'.trace.link.config == w.trace.link.config
    requires w'.queued == if Restarts(w.trace.link, op) then []
                          else if op.SubmitOp? && op.msu.Octets() <= MAX_MSU_BODY then w.queued + [op.msu]
                          else w.queued
    ensures RunsTx(w', if Restarts(w.trace.link, op) then [] else history + AskedOfTx(w, op))
  {
    OneAskedMore(w.trace.link.config.scheme, history, AskedOfTx(w, op));
  }

  lemma TxStepFollows(w: Notes, op: LinkOp, history: seq<TxOp>)
    requires Matches(w) && RunsTx(w, history)
    ensures RunsTx(NoteStep(w, op), if Restarts(w.trace.link, op) then [] else history + AskedOfTx(w, op))
  {
    StepDrives(w, op);
    StepKeeps(w.trace.link, op);
    TxFollows(w, op, NoteStep(w, op), history);
  }

  lemma {:induction false} TxFollowed(config: LinkConfig, ops: seq<LinkOp>)
    ensures RunsTx(NoteRun(config, ops), TxHistory(config, ops))
  {
    if ops != [] {
      TxFollowed(config, ops[..|ops| - 1]);
      RunMatches(config, ops[..|ops| - 1]);
      TxStepFollows(NoteRun(config, ops[..|ops| - 1]), ops[|ops| - 1], TxHistory(config, ops[..|ops| - 1]));
    }
  }

  /**
   * In every run the transmit side of a link is a transmit side that was submitted what was
   * queued, polled for the units that may carry an MSU, and given the acknowledgements of the
   * units attended to, since the last start; so what holds in every such run holds of links.
   */
  lemma LinkIsTransmitRun(config: LinkConfig, ops: seq<LinkOp>)
    ensures LinkRun(config, ops).link.tx == TxRun(config.scheme, TxHistory(config, ops))
    ensures NoteRun(config, ops).queued == Submissions(TxHistory(config, ops))
  {
    TxFollowed(config, ops);
    RunMatches(config, ops);
  }

  /** Both sides move exactly with what is asked of them. */
  lemma ControllersAreDriven(config: LinkConfig, ops: seq<LinkOp>, op: LinkOp)
    ensures Driven(NoteRun(config, ops), op, LinkRun(config, ops + [op]).link)
  {
    OneOpMore(config, ops, op);
    RunMatches(config, ops);
    StepDrives(NoteRun(config, ops), op);
  }

  // ---- Congestion, end to end ----

  /** The peer, if it serves, was told to hold. */
  predicate Held(w: Notes) {
    Serves(w.trace.link.state) ==> w.peerBusy || w.peerOutage
  }

  /** Service begins without a FISU or MSU only when a SIPO is heard. */
  lemma HeldEntry(w: Notes, op: LinkOp)
    requires !HearsTraffic(op) && !Serves(w.trace.link.state) && Serves(Leads(w, op))
    ensures HearsStatus(op, Status.ProcessorOutage)
  {
  }

  lemma HeldNext(w: Notes, op: LinkOp)
    requires Held(w) && !HearsTraffic(op)
    requires Step(w.trace.link, op).state == Leads(w, op)
    ensures Held(NoteStep(w, op))
  {
    if !Serves(w.trace.link.state) && Serves(Leads(w, op)) {
      HeldEntry(w, op);
    }
  }

  /** Only a FISU or MSU ends a hold, and only such a unit begins service without one. */
  lemma HeldUntilTraffic(config: LinkConfig, ops: seq<LinkOp>, op: LinkOp)
    requires Held(NoteRun(config, ops)) && !HearsTraffic(op)
    ensures Held(NoteRun(config, ops + [op]))
  {
    OneOpMore(config, ops, op);
    RunMatches(config, ops);
    StepMatches(NoteRun(config, ops), op);
    HeldNext(NoteRun(config, ops), op);
  }

  /** What every operation but a FISU or MSU heard keeps, a run without such units keeps. */
  lemma {:induction false} KeptThroughout(kept: seq<LinkOp> -> bool, ops: seq<LinkOp>, later: seq<LinkOp>)
    requires kept(ops) && forall i :: 0 <= i < |later| ==> !HearsTraffic(later[i])
    requires forall o, op :: kept(o) && !HearsTraffic(op) ==> kept(o + [op])
    ensures kept(ops + later)
  {
    if later == [] {
      assert ops + later == ops;
    } else {
      var n := |later| - 1;
      KeptThroughout(kept, ops, later[..n]);
      assert ops + later == ops + later[..n] + [later[n]];
    }
  }

  lemma HeldThroughout(config: LinkConfig, ops: seq<LinkOp>, later: seq<LinkOp>)
    requires Held(NoteRun(config, ops)) && forall i :: 0 <= i < |later| ==> !HearsTraffic(later[i])
    ensures Held(NoteRun(config, ops + later))
  {
    var kept := (o: seq<LinkOp>) => Held(NoteRun(config, o));
    forall o, op | kept(o) && !HearsTraffic(op) ensures kept(o + [op]) {
      HeldUntilTraffic(config, o, op);
    }
    KeptThroughout(kept, ops, later);
  }

  lemma SibExpected(w: Notes, su: SignalUnit)
    requires Serves(w.trace.link.state) && !TooManyErrors(w, false) && su.Lssu? && su.status.Busy?
    ensures Expected(w, ReceiveOp(su)) == (if w.peerBusy then [] else [RemoteBusy])
    ensures Leads(w, ReceiveOp(su)) == w.trace.link.state
  {
  }

  lemma SibHolds(w: Notes, su: SignalUnit)
    requires Serves(w.trace.link.state) && su.Lssu? && su.status.Busy?
    ensures Held(NoteStep(w, ReceiveOp(su)))
  {
  }

  lemma SibHeard(config: LinkConfig, ops: seq<LinkOp>, su: SignalUnit)
    requires Serves(LinkRun(config, ops).link.state) && config.suermThreshold >= 1
    requires su.Lssu? && su.status.Busy?
    ensures var log := LinkRun(config, ops).Log();
            && Replay(log).Up?
            && LinkRun(config, ops + [ReceiveOp(su)]).Log() == log + (if Replay(log).busy then [] else [RemoteBusy])
            && Held(NoteRun(config, ops + [ReceiveOp(su)]))
  {
    RunMatches(config, ops);
    OneOpMore(config, ops, ReceiveOp(su));
    EveryStepIsExpected(config, ops, ReceiveOp(su));
    GoodUnitPasses(config, ops);
    LogTellsWhatWasHeard(config, ops);
    SibExpected(NoteRun(config, ops), su);
    SibHolds(NoteRun(config, ops), su);
  }

  /**
   * One end in service is congested, and its next unit reaches a peer in service: the peer
   * reports the congestion unless it already has, and whatever happens to it then, restarts
   * included, sends no MSU until it hears a FISU or MSU.
   */
  lemma CongestionStopsThePeer(configA: LinkConfig, opsA: seq<LinkOp>, configB: LinkConfig, opsB: seq<LinkOp>,
                               later: seq<LinkOp>)
    requires LinkRun(configA, opsA).link.state.InService? && NoteRun(configA, opsA).congested
    requires Serves(LinkRun(configB, opsB).link.state) && configB.suermThreshold >= 1
    requires forall i :: 0 <= i < |later| ==> !HearsTraffic(later[i])
    ensures var told := Transmit(LinkRun(configA, opsA).link).1;
            && told.Some?
            && var heard, log := opsB + [ReceiveOp(told.value)], LinkRun(configB, opsB).Log();
               var out := Transmit(LinkRun(configB, heard + later).link).1;
               && Replay(log).Up?
               && LinkRun(configB, heard).Log() == log + (if Replay(log).busy then [] else [RemoteBusy])
               && !(out.Some? && out.value.MsuUnit?)
  {
    SendsWhatIsTold(configA, opsA);
    RunMatches(configA, opsA);
    var told := Transmit(LinkRun(configA, opsA).link).1.value;
    var heard := opsB + [ReceiveOp(told)];
    SibHeard(configB, opsB, told);
    HeldThroughout(configB, heard, later);
    SendsWhatIsTold(configB, heard + later);
    RunMatches(configB, heard + later);
  }
}
