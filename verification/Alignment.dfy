/**
 * Initial alignment run to completion: two fresh links started together and stepped in
 * lossless cycles reach service, or never do, and the configurations alone decide which.
 */
module Alignment {
  import opened SignalUnits
  import opened LinkControl
  import opened LinkInvariants
  import opened ProvingPeriod
  import opened TwoLinks

  // ---- Cycles of the pair ----

  function OneTick(): Act {
    Local(TickOp)
  }

  /** One cycle more: both send, each hears the other's unit, and both tick. */
  function WithCycle(acts: seq<PairAct>): seq<PairAct> {
    acts + [AtA(Send), AtB(Send)] + [AtB(Deliver), AtA(Deliver)] + [AtA(OneTick()), AtB(OneTick())]
  }

  /** Both start, and n cycles follow. */
  function Schedule(n: nat): seq<PairAct> {
    if n == 0 then [AtA(Local(StartOp)), AtB(Local(StartOp))] else WithCycle(Schedule(n - 1))
  }

  function AfterCycles(configA: LinkConfig, configB: LinkConfig, n: nat): Pair {
    PairRun(configA, configB, Schedule(n))
  }

  predicate BothInService(p: Pair) {
    p.a.trace.link.state.InService? && p.b.trace.link.state.InService?
  }

  // ---- When alignment completes ----

  /** Both ends prove at the emergency period if either asks for it. */
  predicate Urgent(configA: LinkConfig, configB: LinkConfig) {
    configA.emergency || configB.emergency
  }

  /** Cycles of proving; a period of zero still takes one. */
  function ProvingCycles(config: LinkConfig, urgent: bool): nat {
    AtLeastOne(ChosenFor(config, urgent).0)
  }

  /**
   * T3 leaves time for the second cycle, T1 covers the peer's longer proving, and urgent
   * proving is over at one end before the peer's status unit can restart it.
   */
  predicate Completes(configA: LinkConfig, configB: LinkConfig) {
    var urgent := Urgent(configA, configB);
    var periodA, periodB := ProvingCycles(configA, urgent), ProvingCycles(configB, urgent);
    && configA.t3Aligned >= 2 && configB.t3Aligned >= 2
    && (urgent ==> periodA == 1 || periodB == 1)
    && periodB < periodA + AtLeastOne(configA.t1AlignedReady)
    && periodA < periodB + AtLeastOne(configB.t1AlignedReady)
  }

  /** Two cycles and the longer proving. */
  function CyclesToService(configA: LinkConfig, configB: LinkConfig): nat {
    var urgent := Urgent(configA, configB);
    var periodA, periodB := ProvingCycles(configA, urgent), ProvingCycles(configB, urgent);
    2 + (if periodA >= periodB then periodA else periodB)
  }

  // ---- The phases of alignment, and one cycle of them ----

  datatype Phase =
    | Listening(urgent: bool)
    | Hearing(urgent: bool)
    | Attesting(urgent: bool, left: nat)
    | Waiting(left: nat)
    | Up
    | Out

  function Left(t: Timer): nat {
    match t
    case None => 0
    case Some(remaining) => remaining
  }

  /** Without a local outage the last two states do not occur. */
  function PhaseOf(s: LinkState): Phase {
    match s.state
    case OutOfService => Out
    case NotAligned => Listening(s.emergency)
    case Aligned => Hearing(s.emergency)
    case Proving => Attesting(s.emergency, Left(s.timers.t4))
    case AlignedReady => Waiting(Left(s.timers.t1))
    case InService => Up
    case AlignedNotReady => Waiting(0)
    case ProcessorOutage => Waiting(0)
  }

  predicate Urges(v: Phase) {
    (v.Hearing? || v.Attesting?) && v.urgent
  }

  /** The unit sent in a phase of alignment. */
  predicate Says(v: Phase, su: SignalUnit) {
    match v
    case Listening(_) => su.Lssu? && su.status.OutOfAlignment?
    case Hearing(urgent) => su.Lssu? && su.status == (if urgent then EmergencyAlignment else NormalAlignment)
    case Attesting(urgent, _) => su.Lssu? && su.status == (if urgent then EmergencyAlignment else NormalAlignment)
    case Waiting(_) => su.Fisu?
    case Up => false
    case Out => su.Lssu? && su.status.OutOfService?
  }

  /** Two ends started together leave the first two phases together. */
  predicate Together(v: Phase, w: Phase) {
    && (v.Listening? <==> w.Listening?)
    && (v.Hearing? ==> w.Hearing? || w.Out?)
    && (w.Hearing? ==> v.Hearing? || v.Out?)
  }

  /** Proving entered in the cycle that has just ticked. */
  function Entered(config: LinkConfig, urgent: bool): Phase {
    var period := ChosenFor(config, urgent).0;
    if period <= 1 then Waiting(config.t1AlignedReady) else Attesting(urgent, period - 1)
  }

  function NextPhase(config: LinkConfig, v: Phase, heard: Phase): Phase {
    match v
    case Listening(urgent) => if config.t3Aligned <= 1 then Out else Hearing(urgent)
    case Hearing(urgent) =>
      if heard.Out? then Out else Entered(config, urgent || Urges(heard))
    case Attesting(urgent, left) =>
      if heard.Out? then Out
      else if Urges(heard) then Entered(config, true)
      else if left <= 1 then Waiting(config.t1AlignedReady)
      else Attesting(urgent, left - 1)
    case Waiting(left) =>
      if heard.Out? then Out
      else if heard.Waiting? then Up
      else if left <= 1 then Out
      else Waiting(left - 1)
    case Up => Up
    case Out => Out
  }

  function NextPhases(configA: LinkConfig, configB: LinkConfig, vs: (Phase, Phase)): (Phase, Phase) {
    (NextPhase(configA, vs.0, vs.1), NextPhase(configB, vs.1, vs.0))
  }

  function Phases(configA: LinkConfig, configB: LinkConfig, n: nat): (Phase, Phase) {
    if n == 0 then (Listening(configA.emergency), Listening(configB.emergency))
    else
      NextPhases(configA, configB, Phases(configA, configB, n - 1))
  }

  // ---- One link over one cycle does what its phase does ----

  function Cycle(s: LinkState, heard: SignalUnit): LinkState {
    Tick(Receive(s, heard))
  }

  /** A started link that sees no local outage. */
  ghost predicate Ordinary(s: LinkState) {
    LinkOk(s) && s.active && !s.localOutage
  }

  predicate SameSetting(s: LinkState, s': LinkState) {
    s'.config == s.config && s'.active == s.active && s'.localOutage == s.localOutage
  }

  lemma Spoken(s: LinkState)
    requires Ordinary(s) && !s.Serving()
    ensures Transmit(s).0 == s && Transmit(s).1.Some? && Says(PhaseOf(s), Transmit(s).1.value)
  {
  }

  lemma OutTick(s: LinkState)
    requires LinkOk(s) && s.state.OutOfService?
    ensures Tick(s).state.OutOfService? && SameSetting(s, Tick(s))
  {
    assert TickHearing(s) == (s, false) && TickProving(s) == (s, false);
  }

  lemma HearingTick(s: LinkState)
    requires LinkOk(s) && s.state.Aligned?
    ensures SameSetting(s, Tick(s))
    ensures PhaseOf(Tick(s)) == if Left(s.timers.t3) <= 1 then Out else PhaseOf(s)
  {
    var (s1, failed) := TickHearing(s);
    assert failed <==> Left(s.timers.t3) <= 1;
    if !failed {
      assert TickProving(s1) == (s1, false) && TickService(s1) == s1;
    }
  }

  lemma AttestingTick(s: LinkState)
    requires LinkOk(s) && s.state.Proving? && !s.localOutage
    ensures SameSetting(s, Tick(s))
    ensures PhaseOf(Tick(s)) == if Left(s.timers.t4) <= 1 then Waiting(s.config.t1AlignedReady)
                                else Attesting(s.emergency, Left(s.timers.t4) - 1)
  {
    assert TickHearing(s) == (s, false);
    var (s2, proved) := TickProving(s);
    assert proved <==> Left(s.timers.t4) <= 1;
    if !proved {
      assert TickService(s2) == s2;
    }
  }

  lemma WaitingTick(s: LinkState)
    requires LinkOk(s) && s.state.AlignedReady?
    ensures SameSetting(s, Tick(s))
    ensures PhaseOf(Tick(s)) == if Left(s.timers.t1) <= 1 then Out else Waiting(Left(s.timers.t1) - 1)
  {
    assert TickHearing(s) == (s, false);
    var (s2, failed) := TickProving(s);
    assert failed <==> Left(s.timers.t1) <= 1;
    if !failed {
      assert TickService(s2) == s2;
    }
  }

  lemma UpTick(s: LinkState)
    requires LinkOk(s) && s.state.InService? && !s.remoteBusy && s.tx.unacked == []
    ensures Tick(s).state.InService?
  {
    assert TickHearing(s) == (s, false) && TickProving(s) == (s, false) && TickService(s) == s;
  }

  lemma CycleListening(s: LinkState, su: SignalUnit)
    requires Ordinary(s) && s.state.NotAligned? && su.Lssu? && su.status.OutOfAlignment?
    ensures SameSetting(s, Cycle(s, su))
    ensures PhaseOf(Cycle(s, su)) == if s.config.t3Aligned <= 1 then Out else Hearing(s.emergency)
  {
    ReceiveKeeps(s, su);
    assert Receive(s, su) == NotAlignedLssu(s, su.status);
    HearingTick(Receive(s, su));
  }

  /** SIOS ends alignment at the end that hears it. */
  lemma CycleHearsOut(s: LinkState, su: SignalUnit)
    requires Ordinary(s) && (s.state.Aligned? || s.state.Proving? || s.state.AlignedReady?)
    requires su.Lssu? && su.status.OutOfService?
    ensures SameSetting(s, Cycle(s, su)) && PhaseOf(Cycle(s, su)) == Out
  {
    ReceiveKeeps(s, su);
    assert Receive(s, su) == FailAlignment(s, AlignmentFailure.ReceivedSios);
    OutTick(Receive(s, su));
  }

  lemma EnteringSetting(s: LinkState, su: SignalUnit)
    requires EntersProving(s, ReceiveOp(su))
    ensures SameSetting(s, Receive(s, su))
    ensures Receive(s, su).emergency == (s.emergency || su.status.EmergencyAlignment?)
  {
  }

  /** Entering proving and the tick of the same cycle. */
  lemma CycleEnters(s: LinkState, su: SignalUnit)
    requires Ordinary(s) && EntersProving(s, ReceiveOp(su))
    ensures SameSetting(s, Cycle(s, su))
    ensures PhaseOf(Cycle(s, su)) == Entered(s.config, s.emergency || su.status.EmergencyAlignment?)
  {
    ReceiveKeeps(s, su);
    EnteringEffect(s, su);
    EnteringSetting(s, su);
    AttestingTick(Receive(s, su));
  }

  lemma CycleAttests(s: LinkState, su: SignalUnit)
    requires Ordinary(s) && s.state.Proving?
    requires su.Fisu? || (su.Lssu? && su.status.NormalAlignment?)
    ensures SameSetting(s, Cycle(s, su))
    ensures PhaseOf(Cycle(s, su)) == if Left(s.timers.t4) <= 1 then Waiting(s.config.t1AlignedReady)
                                     else Attesting(s.emergency, Left(s.timers.t4) - 1)
  {
    assert Receive(s, su) == s;
    AttestingTick(s);
  }

  lemma CycleWaits(s: LinkState, su: SignalUnit)
    requires Ordinary(s) && s.state.AlignedReady?
    requires su.Lssu? && (su.status.NormalAlignment? || su.status.EmergencyAlignment?)
    ensures SameSetting(s, Cycle(s, su))
    ensures PhaseOf(Cycle(s, su)) == if Left(s.timers.t1) <= 1 then Out else Waiting(Left(s.timers.t1) - 1)
  {
    assert Receive(s, su) == s;
    WaitingTick(s);
  }

  lemma CycleServes(s: LinkState, su: SignalUnit)
    requires Ordinary(s) && s.state.AlignedReady? && su.Fisu?
    ensures Cycle(s, su).state.InService?
  {
    ReceiveKeeps(s, su);
    var s1 := EnterInService(s);
    assert ApplyAck(s1, su.header).tx.unacked == [];
    assert Receive(s, su) == ApplyAck(s1, su.header);
    UpTick(Receive(s, su));
  }

  lemma CycleOut(s: LinkState, su: SignalUnit)
    requires Ordinary(s) && s.state.OutOfService?
    ensures SameSetting(s, Cycle(s, su)) && PhaseOf(Cycle(s, su)) == Out
  {
    assert Receive(s, su) == s;
    OutTick(s);
  }

  lemma CycleKeeps(s: LinkState, su: SignalUnit)
    requires LinkOk(s)
    ensures LinkOk(Cycle(s, su)) && Cycle(s, su).config == s.config
  {
    ReceiveKeeps(s, su);
    TickKeeps(Receive(s, su));
  }

  /** A link hearing an end in phase `heard` moves as its own phase does. */
  lemma CycleRefinesPhase(s: LinkState, su: SignalUnit, heard: Phase)
    requires Ordinary(s) && !s.Serving() && Says(heard, su) && Together(PhaseOf(s), heard)
    ensures PhaseOf(Cycle(s, su)) == NextPhase(s.config, PhaseOf(s), heard)
    ensures !PhaseOf(Cycle(s, su)).Up? ==> Ordinary(Cycle(s, su)) && SameSetting(s, Cycle(s, su))
  {
    CycleKeeps(s, su);
    match s.state
    case OutOfService => CycleOut(s, su);
    case NotAligned => CycleListening(s, su);
    case Aligned => if heard.Out? { CycleHearsOut(s, su); } else { CycleEnters(s, su); }
    case Proving =>
      if heard.Out? { CycleHearsOut(s, su); }
      else if Urges(heard) { CycleEnters(s, su); }
      else { CycleAttests(s, su); }
    case AlignedReady =>
      if heard.Out? { CycleHearsOut(s, su); }
      else if heard.Waiting? { CycleServes(s, su); }
      else { CycleWaits(s, su); }
    case _ => assert false;
  }

  // ---- The pair over its cycles does what the phases do ----

  predicate LineEmpty(p: Pair) {
    p.ab == [] && p.ba == []
  }

  function Sent(p: Pair): Pair {
    PairStep(PairStep(p, AtA(Send)), AtB(Send))
  }

  function Heard(p: Pair): Pair {
    PairStep(PairStep(p, AtB(Deliver)), AtA(Deliver))
  }

  function Ticked(p: Pair): Pair {
    PairStep(PairStep(p, AtA(OneTick())), AtB(OneTick()))
  }

  function Cycled(p: Pair): Pair {
    Ticked(Heard(Sent(p)))
  }

  lemma RunOneMore(configA: LinkConfig, configB: LinkConfig, acts: seq<PairAct>, x: PairAct)
    ensures PairRun(configA, configB, acts + [x]) == PairStep(PairRun(configA, configB, acts), x)
  {
    assert (acts + [x])[..|acts|] == acts && (acts + [x])[|acts|] == x;
  }

  lemma RunTwoMore(configA: LinkConfig, configB: LinkConfig, acts: seq<PairAct>, x: PairAct, y: PairAct)
    ensures PairRun(configA, configB, acts + [x, y])
         == PairStep(PairStep(PairRun(configA, configB, acts), x), y)
  {
    assert acts + [x, y] == (acts + [x]) + [y];
    RunOneMore(configA, configB, acts, x);
    RunOneMore(configA, configB, acts + [x], y);
  }

  lemma CycleOfRun(configA: LinkConfig, configB: LinkConfig, acts: seq<PairAct>)
    ensures PairRun(configA, configB, WithCycle(acts)) == Cycled(PairRun(configA, configB, acts))
  {
    var sent := acts + [AtA(Send), AtB(Send)];
    var heard := sent + [AtB(Deliver), AtA(Deliver)];
    RunTwoMore(configA, configB, acts, AtA(Send), AtB(Send));
    RunTwoMore(configA, configB, sent, AtB(Deliver), AtA(Deliver));
    RunTwoMore(configA, configB, heard, AtA(OneTick()), AtB(OneTick()));
  }

  lemma SentLinks(p: Pair)
    requires LineEmpty(p) && Transmit(p.a.trace.link).1.Some? && Transmit(p.b.trace.link).1.Some?
    requires Transmit(p.a.trace.link).0 == p.a.trace.link && Transmit(p.b.trace.link).0 == p.b.trace.link
    ensures var sent := Sent(p);
            && sent.a.trace.link == p.a.trace.link && sent.b.trace.link == p.b.trace.link
            && sent.ab == [Transmit(p.a.trace.link).1.value] && sent.ba == [Transmit(p.b.trace.link).1.value]
  {
  }

  lemma HeardLinks(p: Pair)
    requires |p.ab| == 1 && |p.ba| == 1
    ensures var heard := Heard(p);
            && LineEmpty(heard)
            && heard.a.trace.link == Receive(p.a.trace.link, p.ba[0])
            && heard.b.trace.link == Receive(p.b.trace.link, p.ab[0])
  {
  }

  lemma TickedLinks(p: Pair)
    requires LineEmpty(p)
    ensures var ticked := Ticked(p);
            && LineEmpty(ticked)
            && ticked.a.trace.link == Tick(p.a.trace.link)
            && ticked.b.trace.link == Tick(p.b.trace.link)
  {
  }

  lemma CycledLinks(p: Pair)
    requires LineEmpty(p)
    requires Ordinary(p.a.trace.link) && !p.a.trace.link.Serving()
    requires Ordinary(p.b.trace.link) && !p.b.trace.link.Serving()
    ensures var q := Cycled(p);
            && LineEmpty(q)
            && q.a.trace.link == Cycle(p.a.trace.link, Transmit(p.b.trace.link).1.value)
            && q.b.trace.link == Cycle(p.b.trace.link, Transmit(p.a.trace.link).1.value)
  {
    Spoken(p.a.trace.link);
    Spoken(p.b.trace.link);
    SentLinks(p);
    HeardLinks(Sent(p));
    TickedLinks(Heard(Sent(p)));
  }

  predicate NeitherUp(vs: (Phase, Phase)) {
    !vs.0.Up? && !vs.1.Up?
  }

  ghost predicate InPhases(p: Pair, vs: (Phase, Phase)) {
    && PhaseOf(p.a.trace.link) == vs.0 && PhaseOf(p.b.trace.link) == vs.1
    && (NeitherUp(vs) ==> LineEmpty(p) && Ordinary(p.a.trace.link) && Ordinary(p.b.trace.link))
  }

  lemma Begun(configA: LinkConfig, configB: LinkConfig)
    ensures var p := AfterCycles(configA, configB, 0);
            && InPhases(p, Phases(configA, configB, 0))
            && p.a.trace.link.config == configA && p.b.trace.link.config == configB
  {
    var acts := Schedule(0);
    assert acts[..1] == [AtA(Local(StartOp))] && acts[..1][..0] == [];
    StartKeeps(NewLink(configA));
    StartKeeps(NewLink(configB));
    var p := PairStep(NewPair(configA, configB), AtA(Local(StartOp)));
    assert p.a.trace.link == Start(NewLink(configA)) && p.b.trace.link == NewLink(configB);
    assert PairRun(configA, configB, acts[..1]) == p;
    assert AfterCycles(configA, configB, 0).b.trace.link == Start(NewLink(configB));
  }

  lemma NextTogether(configA: LinkConfig, configB: LinkConfig, vs: (Phase, Phase))
    requires Together(vs.0, vs.1)
    ensures Together(NextPhases(configA, configB, vs).0, NextPhases(configA, configB, vs).1)
  {
  }

  lemma {:induction false} PhasesTogether(configA: LinkConfig, configB: LinkConfig, n: nat)
    ensures Together(Phases(configA, configB, n).0, Phases(configA, configB, n).1)
  {
    if n > 0 {
      PhasesTogether(configA, configB, n - 1);
      NextTogether(configA, configB, Phases(configA, configB, n - 1));
    }
  }

  lemma CycleOfPair(a: LinkState, b: LinkState, v: Phase, w: Phase)
    requires Ordinary(a) && Ordinary(b) && PhaseOf(a) == v && PhaseOf(b) == w
    requires !v.Up? && !w.Up? && Together(v, w)
    ensures var a' := Cycle(a, Transmit(b).1.value);
            && PhaseOf(a') == NextPhase(a.config, v, w)
            && a'.config == a.config
            && (!PhaseOf(a').Up? ==> Ordinary(a'))
  {
    Spoken(b);
    var su := Transmit(b).1.value;
    CycleRefinesPhase(a, su, w);
    CycleKeeps(a, su);
  }

  lemma PairCycle(p: Pair, v: Phase, w: Phase)
    requires InPhases(p, (v, w)) && NeitherUp((v, w)) && Together(v, w)
    ensures var a, b, q := p.a.trace.link, p.b.trace.link, Cycled(p);
            && InPhases(q, (NextPhase(a.config, v, w), NextPhase(b.config, w, v)))
            && q.a.trace.link.config == a.config && q.b.trace.link.config == b.config
  {
    CycledLinks(p);
    CycleOfPair(p.a.trace.link, p.b.trace.link, v, w);
    CycleOfPair(p.b.trace.link, p.a.trace.link, w, v);
  }

  /** Until an end is in service the links of the pair are in the phases computed for them. */
  lemma {:induction false} PairFollowsPhases(configA: LinkConfig, configB: LinkConfig, n: nat)
    requires n > 0 ==> NeitherUp(Phases(configA, configB, n - 1))
    ensures var p := AfterCycles(configA, configB, n);
            && InPhases(p, Phases(configA, configB, n))
            && p.a.trace.link.config == configA && p.b.trace.link.config == configB
  {
    if n == 0 {
      Begun(configA, configB);
    } else {
      var (v, w) := Phases(configA, configB, n - 1);
      PairFollowsPhases(configA, configB, n - 1);
      PhasesTogether(configA, configB, n - 1);
      CycleOfRun(configA, configB, Schedule(n - 1));
      PairCycle(AfterCycles(configA, configB, n - 1), v, w);
    }
  }

  // ---- What the phases come to ----

  /** Cycles after which T1 of an end that is ready has run out. */
  function Patience(config: LinkConfig, urgent: bool): nat {
    ProvingCycles(config, urgent) + AtLeastOne(config.t1AlignedReady)
  }

  /** The phase of an end on its way to service after k cycles, two or more. */
  function OnCourse(config: LinkConfig, urgent: bool, k: nat): Phase
    requires k >= 2
  {
    var period := ProvingCycles(config, urgent);
    if k <= period then Attesting(urgent, period + 1 - k)
    else if k - 1 - period <= config.t1AlignedReady then Waiting(config.t1AlignedReady - (k - 1 - period))
    else Out
  }

  predicate ProvingOverlaps(configA: LinkConfig, configB: LinkConfig) {
    var urgent := Urgent(configA, configB);
    && configA.t3Aligned >= 2 && configB.t3Aligned >= 2
    && (urgent ==> ProvingCycles(configA, urgent) == 1 || ProvingCycles(configB, urgent) == 1)
  }

  lemma AfterTwoCycles(configA: LinkConfig, configB: LinkConfig)
    requires configA.t3Aligned >= 2 && configB.t3Aligned >= 2
    ensures var urgent := Urgent(configA, configB);
            Phases(configA, configB, 2) == (Entered(configA, urgent), Entered(configB, urgent))
  {
    assert Phases(configA, configB, 1) == (Hearing(configA.emergency), Hearing(configB.emergency));
  }

  /** An end stays on course while its T1 lasts and nothing restarts or completes it. */
  lemma NextOnCourse(config: LinkConfig, urgent: bool, k: nat, heard: Phase)
    requires 2 <= k < Patience(config, urgent)
    requires heard.Attesting? || heard.Waiting?
    requires k <= ProvingCycles(config, urgent) ==> !Urges(heard)
    requires k > ProvingCycles(config, urgent) ==> !heard.Waiting?
    ensures NextPhase(config, OnCourse(config, urgent, k), heard) == OnCourse(config, urgent, k + 1)
  {
  }

  lemma NextPairOnCourse(configA: LinkConfig, configB: LinkConfig, urgent: bool, k: nat)
    requires 2 <= k < Patience(configA, urgent) && k < Patience(configB, urgent)
    requires k <= ProvingCycles(configA, urgent) || k <= ProvingCycles(configB, urgent)
    requires urgent ==> ProvingCycles(configA, urgent) == 1 || ProvingCycles(configB, urgent) == 1
    ensures NextPhases(configA, configB, (OnCourse(configA, urgent, k), OnCourse(configB, urgent, k)))
         == (OnCourse(configA, urgent, k + 1), OnCourse(configB, urgent, k + 1))
  {
    NextOnCourse(configA, urgent, k, OnCourse(configB, urgent, k));
    NextOnCourse(configB, urgent, k, OnCourse(configA, urgent, k));
  }

  lemma {:induction false} StaysOnCourse(configA: LinkConfig, configB: LinkConfig, k: nat)
    requires ProvingOverlaps(configA, configB) && k >= 2
    requires var urgent := Urgent(configA, configB);
             && k <= Patience(configA, urgent) && k <= Patience(configB, urgent)
             && (k <= 1 + ProvingCycles(configA, urgent) || k <= 1 + ProvingCycles(configB, urgent))
    ensures var urgent := Urgent(configA, configB);
            Phases(configA, configB, k) == (OnCourse(configA, urgent, k), OnCourse(configB, urgent, k))
  {
    if k == 2 {
      AfterTwoCycles(configA, configB);
    } else {
      var urgent := Urgent(configA, configB);
      StaysOnCourse(configA, configB, k - 1);
      NextPairOnCourse(configA, configB, urgent, k - 1);
      assert Phases(configA, configB, k) == NextPhases(configA, configB, Phases(configA, configB, k - 1));
    }
  }

  /** The phases reach service in the cycle after the longer proving ends. */
  lemma ReachesService(configA: LinkConfig, configB: LinkConfig, n: nat)
    requires Completes(configA, configB) && n == CyclesToService(configA, configB)
    ensures NeitherUp(Phases(configA, configB, n - 1)) && Phases(configA, configB, n) == (Up, Up)
  {
    StaysOnCourse(configA, configB, n - 1);
  }

  /** One end has given up, and the other will hear of it. */
  predicate Failed(vs: (Phase, Phase)) {
    && NeitherUp(vs) && !vs.0.Listening? && !vs.1.Listening?
    && (vs.0.Out? || vs.1.Out?)
  }

  lemma {:induction false} FailedStays(configA: LinkConfig, configB: LinkConfig, m: nat, n: nat)
    requires m <= n && Failed(Phases(configA, configB, m))
    ensures Failed(Phases(configA, configB, n))
  {
    if m < n {
      FailedStays(configA, configB, m, n - 1);
    }
  }

  /** Urgent proving of two or more cycles at both ends restarts itself for ever. */
  lemma {:induction false} UrgencyRepeats(configA: LinkConfig, configB: LinkConfig, n: nat)
    requires configA.t3Aligned >= 2 && configB.t3Aligned >= 2 && Urgent(configA, configB) && n >= 2
    requires configA.t4ProvingEmergency >= 2 && configB.t4ProvingEmergency >= 2
    ensures Phases(configA, configB, n)
         == (Attesting(true, configA.t4ProvingEmergency - 1), Attesting(true, configB.t4ProvingEmergency - 1))
  {
    if n == 2 {
      AfterTwoCycles(configA, configB);
    } else {
      UrgencyRepeats(configA, configB, n - 1);
    }
  }

  /** T1 of the end that is ready first runs out while the other is still proving. */
  lemma GivesUpWaiting(configA: LinkConfig, configB: LinkConfig, n: nat)
    requires ProvingOverlaps(configA, configB) && n >= 2
    requires var urgent := Urgent(configA, configB);
             || Patience(configA, urgent) <= ProvingCycles(configB, urgent)
             || Patience(configB, urgent) <= ProvingCycles(configA, urgent)
    ensures NeitherUp(Phases(configA, configB, n))
  {
    var urgent := Urgent(configA, configB);
    var last := if Patience(configA, urgent) <= ProvingCycles(configB, urgent)
                then Patience(configA, urgent) else Patience(configB, urgent);
    if n <= last {
      StaysOnCourse(configA, configB, n);
    } else {
      StaysOnCourse(configA, configB, last);
      assert Failed(Phases(configA, configB, last + 1));
      FailedStays(configA, configB, last + 1, n);
    }
  }

  lemma NeverUp(configA: LinkConfig, configB: LinkConfig, n: nat)
    requires !Completes(configA, configB)
    ensures NeitherUp(Phases(configA, configB, n))
  {
    if n >= 2 {
      if configA.t3Aligned <= 1 || configB.t3Aligned <= 1 {
        assert Failed(Phases(configA, configB, 1));
        FailedStays(configA, configB, 1, n);
      } else if !ProvingOverlaps(configA, configB) {
        UrgencyRepeats(configA, configB, n);
      } else {
        GivesUpWaiting(configA, configB, n);
      }
    }
  }

  // ---- The results ----

  /** When the timers fit, both ends enter service in the cycle after the longer proving ends. */
  lemma AlignmentCompletes(configA: LinkConfig, configB: LinkConfig, n: nat)
    requires Completes(configA, configB) && n == CyclesToService(configA, configB)
    ensures BothInService(AfterCycles(configA, configB, n))
  {
    ReachesService(configA, configB, n);
    PairFollowsPhases(configA, configB, n);
  }

  /** When they do not, neither end is ever in service. */
  lemma AlignmentFails(configA: LinkConfig, configB: LinkConfig, n: nat)
    requires !Completes(configA, configB)
    ensures var p := AfterCycles(configA, configB, n);
            !p.a.trace.link.state.InService? && !p.b.trace.link.state.InService?
  {
    NeverUp(configA, configB, n);
    if n > 0 {
      NeverUp(configA, configB, n - 1);
    }
    PairFollowsPhases(configA, configB, n);
  }

  /**
   * Two fresh links started together over a lossless line reach service iff the timers of
   * the two configurations fit; then both do, together.
   */
  lemma AlignmentCompletesIff(configA: LinkConfig, configB: LinkConfig)
    ensures (exists n: nat :: BothInService(AfterCycles(configA, configB, n))) <==> Completes(configA, configB)
  {
    if Completes(configA, configB) {
      AlignmentCompletes(configA, configB, CyclesToService(configA, configB));
    } else {
      forall n: nat ensures !BothInService(AfterCycles(configA, configB, n)) {
        AlignmentFails(configA, configB, n);
      }
    }
  }

  /**
   * Two links of which one asks for emergency alignment, with emergency periods of two ticks
   * or more, are never in service, and unless T3 ends the attempt they prove for ever: each
   * hears SIE in every cycle and starts again.
   */
  lemma EmergencyNeverCompletes(configA: LinkConfig, configB: LinkConfig, n: nat)
    requires Urgent(configA, configB)
    requires configA.t4ProvingEmergency >= 2 && configB.t4ProvingEmergency >= 2
    ensures var p := AfterCycles(configA, configB, n);
            && !p.a.trace.link.state.InService? && !p.b.trace.link.state.InService?
            && (n >= 2 && configA.t3Aligned >= 2 && configB.t3Aligned >= 2 ==>
                  p.a.trace.link.state.Proving? && p.b.trace.link.state.Proving?)
  {
    AlignmentFails(configA, configB, n);
    if n >= 2 && configA.t3Aligned >= 2 && configB.t3Aligned >= 2 {
      UrgencyRepeats(configA, configB, n);
      NeverUp(configA, configB, n - 1);
      PairFollowsPhases(configA, configB, n);
    }
  }
}
