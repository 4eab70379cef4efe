/** Preventive cyclic retransmission drains its queues over a loss-free line, and exactly when. */
module PcrProgress {
  import opened Basics
  import opened Sequence
  import opened Retransmission
  import opened TransmitBuffer
  import opened Session
  import opened ExactlyOnce
  import opened Windows
  import opened Handshake
  import opened Recovery

  /** n loss-free rounds, each with its acknowledgement. */
  function Cycles(s: System, n: nat): System
    decreases n
  {
    if n == 0 then s else Cycles(Round(s, true), n - 1)
  }

  ghost predicate Drained(s: System) {
    s.delivered == s.submitted && s.tx.unacked == [] && s.tx.pending == []
  }

  ghost predicate EventuallyDrained(s: System) {
    exists n: nat :: Drained(Cycles(s, n))
  }

  /** Empty channels and a buffer that acknowledgements can always release. */
  ghost predicate Quiet(s: System) {
    && Books(s)
    && s.forward == [] && s.backward == []
    && s.tx.scheme.Pcr? && PcrWindow(s.tx)
    && 1 <= s.tx.scheme.params.n1 && 1 <= s.tx.scheme.params.n2
    && (s.tx.scheme.params.n1 <= HALF_WINDOW || s.tx.scheme.params.n2 <= HALF_WINDOW)
  }

  ghost predicate Settled(s: System) {
    Quiet(s) && s.freed == |s.delivered|
  }

  /** How far the cyclic cursor is from wrapping to the head of the buffer. */
  function ToWrap(tx: TxState): nat {
    if CyclicPosition(tx) == 0 then 0 else |tx.unacked| - tx.pcrCursor
  }

  /** With the buffer at most half a window, an arriving MSU is accepted iff it is expected. */
  lemma ArrivalIsExact(s: System, u: Unit)
    requires Books(s) && s.forward == [u] && |s.tx.unacked| <= HALF_WINDOW
    requires u.frame.body.Message? ==> s.freed <= u.index
    ensures var s' := Apply(s, DeliverUnit);
            && Books(s') && s'.forward == []
            && s' == s.(forward := [], rx := s'.rx, delivered := s'.delivered, toggles := s'.toggles)
            && |s'.delivered| == |s.delivered|
                 + (if u.frame.body.Message? && u.index == |s.delivered| then 1 else 0)
  {
    assert s.forward[0] == u && UnitOk(s, s.forward[0]);
    if u.frame.body.Message? {
      WindowMakesFsnExact(u.index, |s.delivered|);
    }
    BooksAfterDelivery(s);
  }

  lemma BufferIsSmall(s: System)
    requires Quiet(s)
    ensures |PollTx(s.tx).0.unacked| <= HALF_WINDOW && PcrWindow(PollTx(s.tx).0)
    ensures PollTx(s.tx).0.scheme == s.tx.scheme
  {
    PollConserved(s.tx, s.submitted, s.freed);
    PollPcrWindow(s.tx);
  }

  /** A unit sent and delivered: accepted iff it is the expected one. */
  lemma SendAndDeliver(s: System)
    requires Quiet(s)
    ensures var s' := Apply(Apply(s, Poll), DeliverUnit);
            && Quiet(s')
            && s'.tx == PollTx(s.tx).0 && s'.freed == s.freed && s'.submitted == s.submitted
            && |s'.delivered| == |s.delivered| + (if SendsIndex(s, |s.delivered|) then 1 else 0)
  {
    BufferIsSmall(s);
    BooksAfterPoll(s);
    ArrivalIsExact(Apply(s, Poll), NextUnit(s));
  }

  /** The acknowledgement that follows releases everything accepted. */
  lemma AckSettles(s: System)
    requires Quiet(s)
    ensures var s' := Apply(Apply(s, ReturnAck), DeliverAck);
            && Settled(s')
            && s'.submitted == s.submitted && s'.delivered == s.delivered
            && s'.tx.pending == s.tx.pending && s'.Numbered() == s.Numbered()
            && (s.freed == |s.delivered| ==> s'.tx == s.tx)
  {
    var s1 := Apply(s, ReturnAck);
    BooksKept(s, ReturnAck);
    BooksAfterAck(s1);
    var a := s1.backward[0];
    AckIsExact(s.freed, |s.delivered|, |s.tx.unacked|);
    AckConserved(s.tx, s.submitted, s.freed, a.bsn, a.bib);
    AckPcrBounds(s.tx, 0, a.bsn, a.bib);
  }

  /** What a settled transmitter sends, and how it moves. */
  lemma PollEffect(s: System)
    requires Settled(s) && !(s.tx.unacked == [] && s.tx.pending == [])
    ensures var tx' := PollTx(s.tx).0;
            || SendsIndex(s, |s.delivered|)
            || |tx'.pending| < |s.tx.pending|
            || (tx'.pending == s.tx.pending && tx'.unacked == s.tx.unacked && ToWrap(tx') < ToWrap(s.tx))
  {
  }

  /** Each round delivers, or sends a new MSU, or brings the cursor nearer to wrapping. */
  lemma CycleProgress(s: System)
    requires Settled(s) && !Drained(s)
    ensures var s' := Round(s, true);
            && Settled(s') && s'.submitted == s.submitted
            && (|| |s'.delivered| > |s.delivered|
                || (s'.delivered == s.delivered && |s'.tx.pending| < |s.tx.pending|)
                || (s'.delivered == s.delivered && s'.tx.pending == s.tx.pending
                    && ToWrap(s'.tx) < ToWrap(s.tx)))
  {
    assert !(s.tx.unacked == [] && s.tx.pending == []);
    SendAndDeliver(s);
    PollEffect(s);
    var s1 := Apply(Apply(s, Poll), DeliverUnit);
    assert !SendsIndex(s, |s.delivered|) ==> s1.delivered == s.delivered by {
      assert Books(s1) && Books(s);
    }
    AckSettles(s1);
  }

  lemma OneCycleMore(s: System)
    requires EventuallyDrained(Round(s, true))
    ensures EventuallyDrained(s)
  {
    var n: nat :| Drained(Cycles(Round(s, true), n));
    assert Cycles(s, n + 1) == Cycles(Round(s, true), n);
  }

  lemma {:induction false} SettledDrains(s: System)
    requires Settled(s)
    ensures EventuallyDrained(s)
    decreases |s.submitted| - |s.delivered|, |s.tx.pending|, ToWrap(s.tx)
  {
    if Drained(s) {
      assert Drained(Cycles(s, 0));
    } else {
      CycleProgress(s);
      SettledDrains(Round(s, true));
      OneCycleMore(s);
    }
  }

  lemma QuietDrains(s: System)
    requires Quiet(s)
    ensures EventuallyDrained(s)
  {
    SendAndDeliver(s);
    AckSettles(Apply(Apply(s, Poll), DeliverUnit));
    SettledDrains(Round(s, true));
    OneCycleMore(s);
  }

  // ---- Exactly which thresholds make progress certain ----

  ghost predicate CannotGetStuck(s: System) {
    s.forward == [] && s.backward == [] ==> EventuallyDrained(s)
  }

  /** From every reachable state with empty channels, loss-free rounds drain everything. */
  ghost predicate AlwaysDrains(params: PcrParams) {
    forall actions :: CannotGetStuck(Run(NewSystem(Pcr(params)), actions))
  }

  /** A threshold of zero forbids every first transmission. */
  ghost predicate Blocked(s: System) {
    && s.tx.scheme.Pcr? && Forced(s.tx, s.tx.scheme.params)
    && s.tx.unacked == [] && s.tx.pending != [] && s.forward == [] && s.backward == []
  }

  lemma {:induction false} BlockedForever(s: System, n: nat)
    requires Blocked(s)
    ensures Blocked(Cycles(s, n))
    decreases n
  {
    if n > 0 {
      assert Blocked(Round(s, true));
      BlockedForever(Round(s, true), n - 1);
    }
  }

  /** With 65 to 127 outstanding, the number that acknowledges all of them is ignored. */
  ghost predicate Unreleasable(s: System) {
    && s.tx.scheme.Pcr? && s.tx.pending == [] && s.forward == [] && s.backward == []
    && HALF_WINDOW < |s.tx.unacked| < SEQ_MODULUS
    && (forall i :: 0 <= i < |s.tx.unacked| ==> s.tx.unacked[i].fsn == i)
    && s.rx.lastReceived == |s.tx.unacked| - 1
  }

  lemma UnreleasableRound(s: System)
    requires Unreleasable(s)
    ensures Unreleasable(Round(s, true))
  {
    var s1 := Apply(s, Poll);
    var k := CyclicPosition(s.tx);
    assert s1.forward == [NextUnit(s)] && NextUnit(s).frame.fsn == k;
    assert SeqForward(k, s.rx.lastReceived) != 1;
    var s2 := Apply(s1, DeliverUnit);
    assert s2.rx.lastReceived == s.rx.lastReceived;
    assert SeqForward(s.rx.lastReceived, s2.tx.unacked[0].fsn) >= SEQ_HALF;
  }

  lemma {:induction false} UnreleasableForever(s: System, n: nat)
    requires Unreleasable(s)
    ensures Unreleasable(Cycles(s, n))
    decreases n
  {
    if n > 0 {
      UnreleasableRound(s);
      UnreleasableForever(Round(s, true), n - 1);
    }
  }

  /** Nothing numbered, and only fill-in units in flight. */
  predicate Mute(s: System, params: PcrParams) {
    && s.tx.scheme == Pcr(params) && s.tx.unacked == [] && s.delivered == []
    && (forall i :: 0 <= i < |s.forward| ==> s.forward[i].frame.body.Fill?)
  }

  lemma MutePoll(s: System, params: PcrParams)
    requires (params.n1 == 0 || params.n2 == 0) && Mute(s, params)
    ensures Mute(Polled(s), params)
  {
    assert PollTx(s.tx) == (s.tx, FillFrame(s.tx));
  }

  lemma EmptyBufferAck(tx: TxState, bsn: octet, bib: bool)
    requires tx.scheme.Pcr? && tx.unacked == []
    ensures AckTx(tx, bsn, bib) == tx
  {
  }

  lemma MuteAck(s: System, params: PcrParams)
    requires Mute(s, params) && s.backward != []
    ensures Mute(Apply(s, DeliverAck), params)
  {
    EmptyBufferAck(s.tx, s.backward[0].bsn, s.backward[0].bib);
  }

  lemma MuteStays(s: System, params: PcrParams, a: Action)
    requires (params.n1 == 0 || params.n2 == 0) && Mute(s, params)
    ensures Mute(Apply(s, a), params)
  {
    match a
    case Poll => MutePoll(s, params);
    case DeliverAck => if s.backward != [] { MuteAck(s, params); }
    case Submit(m) =>
    case SendFill(fsn, fib) =>
    case LoseUnit =>
    case DeliverUnit => if s.forward != [] { assert s.forward[0].frame.body.Fill?; }
    case ReturnAck =>
    case LoseAck =>
  }

  /** Whatever happens, nothing is ever numbered, sent or delivered. */
  lemma {:induction false} ZeroThresholdNeverSends(params: PcrParams, actions: seq<Action>)
    requires params.n1 == 0 || params.n2 == 0
    ensures var s := Run(NewSystem(Pcr(params)), actions);
            Mute(s, params)
  {
    if actions != [] {
      ZeroThresholdNeverSends(params, actions[..|actions| - 1]);
      MuteStays(Run(NewSystem(Pcr(params)), actions[..|actions| - 1]), params, actions[|actions| - 1]);
    }
  }

  lemma ZeroThresholdSticks(params: PcrParams)
    requires params.n1 == 0 || params.n2 == 0
    ensures !AlwaysDrains(params)
  {
    var s0, m := NewSystem(Pcr(params)), Msu(0, []);
    var s := Run(s0, [Submit(m)]);
    RunOne(s0, Submit(m));
    assert Blocked(s);
    forall n: nat ensures !Drained(Cycles(s, n)) {
      BlockedForever(s, n);
    }
    assert !CannotGetStuck(s);
  }

  lemma OutstandingIsUnreleasable(s: System, params: PcrParams, n: nat)
    requires Outstanding(s, Pcr(params), n, false) && HALF_WINDOW < n < SEQ_MODULUS
    ensures Unreleasable(s)
  {
  }

  lemma BurstIsUnreleasable(params: PcrParams, n: nat)
    requires HALF_WINDOW < n < SEQ_MODULUS && n <= params.n1 && n <= params.n2
    ensures Unreleasable(Run(NewSystem(Pcr(params)), Burst(n, false)))
  {
    AfterBurst(Pcr(params), n, false);
    OutstandingIsUnreleasable(Run(NewSystem(Pcr(params)), Burst(n, false)), params, n);
  }

  /** A burst of n, from 65 to 127, that the thresholds admit is never released. */
  lemma LargeThresholdsStick(params: PcrParams, n: nat)
    requires HALF_WINDOW < n < SEQ_MODULUS && n <= params.n1 && n <= params.n2
    ensures var s := Run(NewSystem(Pcr(params)), Burst(n, false));
            s.forward == [] && s.backward == [] && !EventuallyDrained(s)
  {
    var s := Run(NewSystem(Pcr(params)), Burst(n, false));
    BurstIsUnreleasable(params, n);
    forall k: nat ensures !Drained(Cycles(s, k)) {
      UnreleasableForever(s, k);
    }
  }

  lemma SmallThresholdsDrain(params: PcrParams, actions: seq<Action>)
    requires 1 <= params.n1 && 1 <= params.n2
    requires params.n1 <= HALF_WINDOW || params.n2 <= HALF_WINDOW
    ensures CannotGetStuck(Run(NewSystem(Pcr(params)), actions))
  {
    var s := Run(NewSystem(Pcr(params)), actions);
    PcrRunWindowed(NewSystem(Pcr(params)), actions, HALF_WINDOW);
    WindowedMonotone(NewSystem(Pcr(params)), actions, HALF_WINDOW, WINDOW);
    SafetyInvariant(Pcr(params), actions);
    if s.forward == [] && s.backward == [] {
      QuietDrains(s);
    }
  }

  /**
   * PCR drains every reachable state with empty channels iff both thresholds are positive
   * and one of them is at most 64. The default N1 of 127 with N2 of 8000 is outside.
   */
  lemma PcrAlwaysDrains(params: PcrParams)
    ensures AlwaysDrains(params) <==>
              && 1 <= params.n1 && 1 <= params.n2
              && (params.n1 <= HALF_WINDOW || params.n2 <= HALF_WINDOW)
  {
    if params.n1 == 0 || params.n2 == 0 {
      ZeroThresholdSticks(params);
    } else if params.n1 > HALF_WINDOW && params.n2 > HALF_WINDOW {
      var n := HALF_WINDOW + 1;
      LargeThresholdsStick(params, n);
      assert !CannotGetStuck(Run(NewSystem(Pcr(params)), Burst(n, false)));
    } else {
      forall actions ensures CannotGetStuck(Run(NewSystem(Pcr(params)), actions)) {
        SmallThresholdsDrain(params, actions);
      }
    }
  }
}
