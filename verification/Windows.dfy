/**
 * How far the guarantees reach: the exact number of outstanding MSUs up to which delivery is
 * in order, up to which nothing stale is sent, and how long a gap the receiver notices.
 * Each witness is a burst of n MSUs; n stays a variable, even where it has one value, so
 * that a run of hundreds of actions is not unfolded.
 */
module Windows {
  import opened Basics
  import opened Sequence
  import opened Retransmission
  import opened TransmitBuffer
  import opened Session
  import opened Handshake
  import opened ExactlyOnce

  // ---- Runs with few submissions have few outstanding ----

  function SubmitCount(actions: seq<Action>): nat {
    if actions == [] then 0
    else SubmitCount(actions[..|actions| - 1]) + (if actions[|actions| - 1].Submit? then 1 else 0)
  }

  lemma {:induction false} SubmissionsConcat(x: seq<Action>, y: seq<Action>)
    ensures SubmitCount(x + y) == SubmitCount(x) + SubmitCount(y)
  {
    if y == [] {
      assert x + y == x;
    } else {
      SubmissionsConcat(x, y[..|y| - 1]);
      assert (x + y)[..|x + y| - 1] == x + y[..|y| - 1];
    }
  }

  lemma QueuesGrowBySubmissions(s: System, a: Action)
    ensures var s' := Apply(s, a);
            |s'.tx.unacked| + |s'.tx.pending|
              <= |s.tx.unacked| + |s.tx.pending| + (if a.Submit? then 1 else 0)
  {
    if a.DeliverAck? && s.backward != [] {
      DropAckedIsSuffix(s.tx.unacked, s.backward[0].bsn);
    }
  }

  lemma {:induction false} WindowedBySubmissions(scheme: Scheme, actions: seq<Action>, bound: nat)
    requires SubmitCount(actions) <= bound
    ensures Windowed(NewSystem(scheme), actions, bound)
    ensures var s := Run(NewSystem(scheme), actions);
            |s.tx.unacked| + |s.tx.pending| <= SubmitCount(actions)
  {
    if actions != [] {
      WindowedBySubmissions(scheme, actions[..|actions| - 1], bound);
      QueuesGrowBySubmissions(Run(NewSystem(scheme), actions[..|actions| - 1]), actions[|actions| - 1]);
    }
  }

  // ---- Bursts ----

  /** A one-octet MSU, different for each of the first 128 indices. */
  function Tagged(k: nat): Msu {
    Msu(Fsn(k), [])
  }

  /** MSUs sent one by one and either all lost or all delivered, never acknowledged. */
  function Burst(n: nat, lost: bool): seq<Action> {
    if n == 0 then []
    else Burst(n - 1, lost) + [Submit(Tagged(n - 1)), Poll, if lost then LoseUnit else DeliverUnit]
  }

  ghost predicate Outstanding(s: System, scheme: Scheme, n: nat, lost: bool) {
    && Books(s)
    && s.tx.scheme == scheme
    && s.tx.basicCursor == None && s.tx.pcrCursor == 0
    && s.forward == [] && s.backward == []
    && s.freed == 0 && s.tx.pending == [] && |s.tx.unacked| == Octets(s.tx.unacked) == n
    && |s.delivered| == (if lost then 0 else n)
    && s.tx.fib && s.rx == RxState(scheme, FsnBefore(|s.delivered|), true, false) && s.toggles == 0
    && (forall i :: 0 <= i < n ==> s.submitted[i] == Tagged(i))
  }

  /** A transmitter free to send sends a fresh MSU at once, with the next index. */
  lemma FreshSend(tx: TxState, submitted: seq<Msu>, freed: nat, m: Msu)
    requires Conserved(tx, submitted, freed) && tx.pending == [] && tx.basicCursor == None
    requires tx.scheme.Pcr? ==> !Forced(tx, tx.scheme.params)
    ensures var (tx', frame) := PollTx(SubmitMsu(tx, m));
            var n := freed + |tx.unacked|;
            && tx'.scheme == tx.scheme && tx'.fib == tx.fib && tx'.pending == [] && tx'.basicCursor == None
            && (tx.pcrCursor == 0 ==> tx'.pcrCursor == 0)
            && tx'.unacked == tx.unacked + [BufferedMsu(Fsn(n), m)]
            && Octets(tx'.unacked) == Octets(tx.unacked) + m.Octets()
            && frame == TxFrame(Fsn(n), tx.fib, Message(m))
            && freed + SentPosition(SubmitMsu(tx, m)) == n
  {
    NextFsn(freed + |tx.unacked|);
    var added := [BufferedMsu(Fsn(freed + |tx.unacked|), m)];
    OctetsOfConcat(tx.unacked, added);
    assert added[1..] == [];
    assert SubmitMsu(tx, m).pending == [m] && [m][1..] == [];
  }

  lemma FreshUnit(s: System, m: Msu)
    requires Conserved(s.tx, s.submitted, s.freed)
    requires s.forward == [] && s.tx.pending == [] && s.tx.basicCursor == None
    requires s.tx.scheme.Pcr? ==> !Forced(s.tx, s.tx.scheme.params)
    ensures Apply(Apply(s, Submit(m)), Poll)
         == s.(tx := PollTx(SubmitMsu(s.tx, m)).0,
               submitted := s.submitted + [m],
               forward := [Unit(TxFrame(Fsn(s.Numbered()), s.tx.fib, Message(m)),
                                s.Numbered(), s.Numbered() + 1, s.seen)])
  {
    FreshSend(s.tx, s.submitted, s.freed, m);
  }

  /** One MSU more is in flight, the only one. */
  ghost predicate InTransit(s: System, scheme: Scheme, n: nat, lost: bool) {
    && Books(s)
    && s.tx.scheme == scheme
    && s.tx.basicCursor == None && s.tx.pcrCursor == 0
    && |s.forward| == 1 && s.forward[0].frame == TxFrame(Fsn(n), true, Message(Tagged(n)))
    && s.forward[0].index == n && s.backward == []
    && s.freed == 0 && s.tx.pending == [] && |s.tx.unacked| == Octets(s.tx.unacked) == n + 1
    && |s.delivered| == (if lost then 0 else n)
    && s.tx.fib && s.rx == RxState(scheme, FsnBefore(|s.delivered|), true, false) && s.toggles == 0
    && (forall i :: 0 <= i < n + 1 ==> s.submitted[i] == Tagged(i))
  }

  lemma SentIsInTransit(s: System, scheme: Scheme, n: nat, lost: bool, s': System)
    requires Outstanding(s, scheme, n, lost) && Books(s')
    requires s' == s.(tx := s'.tx, submitted := s.submitted + [Tagged(n)], forward := s'.forward)
    requires |s'.forward| == 1 && s'.forward[0].frame == TxFrame(Fsn(n), true, Message(Tagged(n)))
    requires s'.forward[0].index == n
    requires s'.tx.scheme == scheme && s'.tx.pending == [] && s'.tx.fib
    requires s'.tx.basicCursor == None && s'.tx.pcrCursor == 0
    requires |s'.tx.unacked| == Octets(s'.tx.unacked) == n + 1
    ensures InTransit(s', scheme, n, lost)
  {
  }

  lemma BooksAfterFresh(s: System, m: Msu)
    requires Books(s)
    ensures Books(Apply(Apply(s, Submit(m)), Poll))
  {
    BooksKept(s, Submit(m));
    BooksAfterPoll(Apply(s, Submit(m)));
  }

  lemma OneMoreInTransit(s: System, scheme: Scheme, n: nat, lost: bool)
    requires Outstanding(s, scheme, n, lost)
    requires scheme.Pcr? ==> n < scheme.params.n1 && n < scheme.params.n2
    ensures InTransit(Apply(Apply(s, Submit(Tagged(n))), Poll), scheme, n, lost)
  {
    FreshUnit(s, Tagged(n));
    FreshSend(s.tx, s.submitted, s.freed, Tagged(n));
    BooksAfterFresh(s, Tagged(n));
    SentIsInTransit(s, scheme, n, lost, Apply(Apply(s, Submit(Tagged(n))), Poll));
  }

  lemma OneMoreLost(s: System, scheme: Scheme, n: nat)
    requires InTransit(s, scheme, n, true)
    ensures Outstanding(Apply(s, LoseUnit), scheme, n + 1, true)
  {
    BooksAfterLoss(s);
  }

  lemma ExpectedArrival(s: System)
    requires |s.forward| == 1 && s.forward[0].frame.body.Message?
    requires SeqForward(s.forward[0].frame.fsn, s.rx.lastReceived) == 1
    ensures var s' := Apply(s, DeliverUnit);
            && s' == s.(forward := [], rx := s'.rx, delivered := s'.delivered)
            && s'.rx == s.rx.(lastReceived := s'.rx.lastReceived, nackPending := false)
            && |s'.delivered| == |s.delivered| + 1
  {
  }

  lemma OneMoreDelivered(s: System, scheme: Scheme, n: nat)
    requires InTransit(s, scheme, n, false)
    ensures Outstanding(Apply(s, DeliverUnit), scheme, n + 1, false)
  {
    WindowMakesFsnExact(n, n);
    BooksAfterDelivery(s);
    ExpectedArrival(s);
  }

  lemma OneMoreOutstanding(s: System, scheme: Scheme, n: nat, lost: bool)
    requires Outstanding(s, scheme, n, lost)
    requires scheme.Pcr? ==> n < scheme.params.n1 && n < scheme.params.n2
    ensures var sent := Apply(Apply(s, Submit(Tagged(n))), Poll);
            Outstanding(Apply(sent, if lost then LoseUnit else DeliverUnit), scheme, n + 1, lost)
  {
    var sent := Apply(Apply(s, Submit(Tagged(n))), Poll);
    OneMoreInTransit(s, scheme, n, lost);
    if lost {
      OneMoreLost(sent, scheme, n);
    } else {
      OneMoreDelivered(sent, scheme, n);
    }
  }

  lemma {:induction false} AfterBurst(scheme: Scheme, n: nat, lost: bool)
    requires scheme.Pcr? ==> n <= scheme.params.n1 && n <= scheme.params.n2
    requires n <= WINDOW + 1
    ensures Outstanding(Run(NewSystem(scheme), Burst(n, lost)), scheme, n, lost)
  {
    if n == 0 {
      BooksNew(scheme);
    } else {
      AfterBurst(scheme, n - 1, lost);
      RunThree(NewSystem(scheme), Burst(n - 1, lost),
               Submit(Tagged(n - 1)), Poll, if lost then LoseUnit else DeliverUnit);
      OneMoreOutstanding(Run(NewSystem(scheme), Burst(n - 1, lost)), scheme, n - 1, lost);
    }
  }

  /** A submission and two other actions. */
  lemma ThreeSubmissions(m: Msu, rest: seq<Action>)
    requires |rest| == 2 && !rest[0].Submit? && !rest[1].Submit?
    ensures SubmitCount([Submit(m)] + rest) == 1
    ensures [Submit(m)] + rest == [Submit(m), rest[0], rest[1]]
  {
    var all := [Submit(m)] + rest;
    assert all[..2] == [Submit(m), rest[0]] && all[..2][..1] == [Submit(m)] && [Submit(m)][..0] == [];
    assert SubmitCount([Submit(m)]) == 1;
    assert SubmitCount(all[..2]) == 1;
  }

  lemma {:induction false} BurstSubmissions(n: nat, lost: bool, more: seq<Action>)
    ensures SubmitCount(Burst(n, lost) + more) == n + SubmitCount(more)
  {
    SubmissionsConcat(Burst(n, lost), more);
    if n > 0 {
      BurstSubmissions(n - 1, lost, []);
      assert Burst(n - 1, lost) + [] == Burst(n - 1, lost);
      ThreeSubmissions(Tagged(n - 1), [Poll, if lost then LoseUnit else DeliverUnit]);
      SubmissionsConcat(Burst(n - 1, lost), [Submit(Tagged(n - 1)), Poll, if lost then LoseUnit else DeliverUnit]);
    }
  }

  // ---- In-order delivery ----

  ghost predicate InOrder(s: System) {
    s.delivered <= s.submitted
  }

  ghost predicate AlwaysInOrder(scheme: Scheme) {
    forall actions :: InOrder(Run(NewSystem(scheme), actions))
  }

  /** Every run with at most `bound` outstanding is in order. */
  ghost predicate BoundSuffices(scheme: Scheme, bound: nat) {
    forall actions :: Windowed(NewSystem(scheme), actions, bound) ==> InOrder(Run(NewSystem(scheme), actions))
  }

  /** A sweep of a buffer of 128 starts with the number the receiver expects next. */
  lemma FullSweep(s: System)
    requires s.tx.scheme.Pcr? && s.tx.pending == [] && s.tx.pcrCursor == 0 && s.forward == []
    requires s.tx.unacked != [] && s.tx.unacked[0].fsn == 0 && s.rx.lastReceived == 127
    ensures var s' := Apply(Apply(s, Poll), DeliverUnit);
            s'.submitted == s.submitted && s'.delivered == s.delivered + [s.tx.unacked[0].msu]
  {
  }

  /** n different MSUs were submitted and all delivered, and the first of them again. */
  predicate FirstAgain(s: System, n: nat) {
    && n > 0 && |s.submitted| == n && s.delivered == s.submitted + [s.submitted[0]]
    && (forall i, j :: 0 <= i < j < n ==> s.submitted[i] != s.submitted[j])
  }

  lemma SweepOfOutstanding(s: System, params: PcrParams, n: nat)
    requires Outstanding(s, Pcr(params), n, false) && n == WINDOW + 1
    ensures FirstAgain(Apply(Apply(s, Poll), DeliverUnit), n)
  {
    FullSweep(s);
    assert s.delivered == s.submitted;
    assert s.tx.unacked[0].msu == s.submitted[0];
  }

  /**
   * With 128 different MSUs outstanding, a PCR sweep makes the receiver deliver the first of
   * them a second time.
   */
  lemma PcrDuplicates(params: PcrParams, n: nat)
    requires params.n1 > WINDOW && params.n2 > WINDOW && n == WINDOW + 1
    ensures FirstAgain(Run(NewSystem(Pcr(params)), Burst(n, false) + [Poll, DeliverUnit]), n)
  {
    AfterBurst(Pcr(params), n, false);
    SweepOfOutstanding(Run(NewSystem(Pcr(params)), Burst(n, false)), params, n);
    RunTwo(NewSystem(Pcr(params)), Burst(n, false), Poll, DeliverUnit);
  }

  /** Never more than 128 are outstanding on the way. */
  lemma DuplicatesWindowed(scheme: Scheme, n: nat)
    ensures Windowed(NewSystem(scheme), Burst(n, false) + [Poll, DeliverUnit], n)
  {
    BurstSubmissions(n, false, [Poll, DeliverUnit]);
    assert [Poll, DeliverUnit][..1] == [Poll] && [Poll][..0] == [];
    WindowedBySubmissions(scheme, Burst(n, false) + [Poll, DeliverUnit], n);
  }

  /** PCR delivers exactly once and in order in every run iff N1 or N2 is at most 127. */
  lemma PcrAlwaysInOrder(params: PcrParams)
    ensures AlwaysInOrder(Pcr(params)) <==> params.n1 <= WINDOW || params.n2 <= WINDOW
  {
    if params.n1 <= WINDOW || params.n2 <= WINDOW {
      forall actions ensures InOrder(Run(NewSystem(Pcr(params)), actions)) {
        PcrRunWindowed(NewSystem(Pcr(params)), actions, WINDOW);
        ExactlyOnceInOrder(Pcr(params), actions);
      }
    } else {
      var n := WINDOW + 1;
      PcrDuplicates(params, n);
      assert !InOrder(Run(NewSystem(Pcr(params)), Burst(n, false) + [Poll, DeliverUnit]));
    }
  }

  /** The MSU after a burst of 128 losses; it differs from the first. */
  const LATE := Msu(128, [])

  lemma FreshArrival(s: System)
    requires |s.forward| == 1 && s.forward[0].frame.body.Message? && s.delivered == []
    requires s.forward[0].frame.fsn == 0 && s.rx.lastReceived == 127
    ensures var s' := Apply(s, DeliverUnit);
            s'.submitted == s.submitted && s'.delivered == [s.forward[0].frame.body.msu]
  {
  }

  lemma LateArrival(s: System, n: nat)
    requires Outstanding(s, Basic, n, true) && n == BASIC_WINDOW
    ensures var s' := Apply(Apply(Apply(s, Submit(LATE)), Poll), DeliverUnit);
            s'.delivered == [LATE] && s'.submitted == s.submitted + [LATE]
            && |s.submitted| == n && s.submitted[0] == Tagged(0)
  {
    FreshUnit(s, LATE);
    FreshArrival(Apply(Apply(s, Submit(LATE)), Poll));
  }

  /**
   * The Basic method limits nothing: after 128 losses the 129th MSU, the only one delivered,
   * passes for the first. Never more than 129 are outstanding on the way.
   */
  lemma BasicMistakes(n: nat)
    requires n == BASIC_WINDOW
    ensures var s := Run(NewSystem(Basic), Burst(n, true) + [Submit(LATE), Poll, DeliverUnit]);
            && |s.submitted| == n + 1 && s.delivered == [s.submitted[n]]
            && s.submitted[n] != s.submitted[0]
    ensures Windowed(NewSystem(Basic), Burst(n, true) + [Submit(LATE), Poll, DeliverUnit], n + 1)
  {
    AfterBurst(Basic, n, true);
    LateArrival(Run(NewSystem(Basic), Burst(n, true)), n);
    RunThree(NewSystem(Basic), Burst(n, true), Submit(LATE), Poll, DeliverUnit);
    BurstSubmissions(n, true, [Submit(LATE), Poll, DeliverUnit]);
    ThreeSubmissions(LATE, [Poll, DeliverUnit]);
    WindowedBySubmissions(Basic, Burst(n, true) + [Submit(LATE), Poll, DeliverUnit], n + 1);
  }

  /**
   * A bound on what is outstanding puts every Basic run in order iff it is at most 128.
   */
  lemma BasicWindowIsTight(bound: nat)
    ensures BoundSuffices(Basic, bound) <==> bound <= BASIC_WINDOW
  {
    if bound <= BASIC_WINDOW {
      forall actions | Windowed(NewSystem(Basic), actions, bound)
        ensures InOrder(Run(NewSystem(Basic), actions))
      {
        WindowedMonotone(NewSystem(Basic), actions, bound, BASIC_WINDOW);
        ExactlyOnceInOrder(Basic, actions);
      }
    } else {
      var n := BASIC_WINDOW;
      var actions := Burst(n, true) + [Submit(LATE), Poll, DeliverUnit];
      BasicMistakes(n);
      WindowedMonotone(NewSystem(Basic), actions, n + 1, bound);
      assert !InOrder(Run(NewSystem(Basic), actions));
    }
  }

  /** For PCR the bound is 127, and N1 and N2 are such bounds themselves. */
  lemma PcrWindowIsTight(params: PcrParams, bound: nat)
    ensures BoundSuffices(Pcr(params), bound)
       <==> bound <= WINDOW || params.n1 <= WINDOW || params.n2 <= WINDOW
  {
    if bound <= WINDOW {
      forall actions | Windowed(NewSystem(Pcr(params)), actions, bound)
        ensures InOrder(Run(NewSystem(Pcr(params)), actions))
      {
        WindowedMonotone(NewSystem(Pcr(params)), actions, bound, WINDOW);
        ExactlyOnceInOrder(Pcr(params), actions);
      }
    } else if params.n1 <= WINDOW || params.n2 <= WINDOW {
      PcrAlwaysInOrder(params);
      assert AlwaysInOrder(Pcr(params));
    } else {
      var n := WINDOW + 1;
      var actions := Burst(n, false) + [Poll, DeliverUnit];
      PcrDuplicates(params, n);
      DuplicatesWindowed(Pcr(params), n);
      WindowedMonotone(NewSystem(Pcr(params)), actions, n, bound);
      assert !InOrder(Run(NewSystem(Pcr(params)), actions));
    }
  }

  /** Over both schemes 127 is the largest such bound. */
  lemma WindowIsTight(bound: nat)
    ensures (forall scheme :: BoundSuffices(scheme, bound)) <==> bound <= WINDOW
  {
    if bound <= WINDOW {
      forall scheme: Scheme ensures BoundSuffices(scheme, bound) {
        match scheme
        case Basic => BasicWindowIsTight(bound);
        case Pcr(params) => PcrWindowIsTight(params, bound);
      }
    } else {
      PcrWindowIsTight(PcrParams(bound, bound), bound);
      assert !BoundSuffices(Pcr(PcrParams(bound, bound)), bound);
    }
  }

  /** Without a bound the Basic method does not guarantee order. */
  lemma BasicNotAlwaysInOrder()
    ensures !AlwaysInOrder(Basic)
  {
    var n := BASIC_WINDOW;
    BasicMistakes(n);
    assert !InOrder(Run(NewSystem(Basic), Burst(n, true) + [Submit(LATE), Poll, DeliverUnit]));
  }

  // ---- Nothing stale in flight ----

  /** Every Basic run with at most `bound` outstanding has nothing stale in flight. */
  ghost predicate BoundKeepsFresh(bound: nat) {
    forall actions :: Windowed(NewSystem(Basic), actions, bound) ==> Fresh(Run(NewSystem(Basic), actions))
  }

  function StaleRun(n: nat): seq<Action> {
    Burst(n, false) + [Submit(Tagged(n)), Poll, LoseUnit] + [Submit(Tagged(n + 1)), Poll, DeliverUnit]
      + [ReturnAck, DeliverAck]
  }

  lemma GapToggles(s: System, n: nat)
    requires HALF_WINDOW < n <= 126 && |s.delivered| == n && s.freed == 0
    requires s.tx.scheme.Basic? && s.tx.fib && s.rx == RxState(Basic, FsnBefore(n), true, false)
    requires s.tx.unacked != [] && s.tx.unacked[0].fsn == 0 && s.backward == []
    requires |s.forward| == 1 && s.forward[0].frame.body.Message? && s.forward[0].frame.fsn == Fsn(n + 1)
    ensures NextIndex(Apply(Apply(Apply(s, DeliverUnit), ReturnAck), DeliverAck)) == 0
    ensures |Apply(Apply(Apply(s, DeliverUnit), ReturnAck), DeliverAck).delivered| == n
  {
    var gap := Apply(s, DeliverUnit);
    ForwardOfIndices(n + 1, n);
    assert gap.rx == s.rx.(bib := false, nackPending := true) && gap.tx == s.tx && gap.delivered == s.delivered;
    var told := Apply(gap, ReturnAck);
    assert told.backward[0].bsn == FsnBefore(n) && !told.backward[0].bib;
    assert SeqForward(FsnBefore(n), 0) == n - 1;
  }

  /**
   * With n delivered and unacknowledged, 65 or more, the BSN that answers the next gap is
   * ignored, and the sweep it starts begins with what was delivered long ago.
   */
  lemma StaleSweep(s: System, n: nat)
    requires Outstanding(s, Basic, n, false) && HALF_WINDOW < n <= 126
    ensures var lost := Apply(Apply(Apply(s, Submit(Tagged(n))), Poll), LoseUnit);
            var gap := Apply(Apply(Apply(lost, Submit(Tagged(n + 1))), Poll), DeliverUnit);
            !Fresh(Apply(Apply(gap, ReturnAck), DeliverAck))
  {
    var sent := Apply(Apply(s, Submit(Tagged(n))), Poll);
    FreshUnit(s, Tagged(n));
    FreshSend(s.tx, s.submitted, s.freed, Tagged(n));
    BooksAfterFresh(s, Tagged(n));
    BooksAfterLoss(sent);
    var lost := Apply(sent, LoseUnit);
    FreshUnit(lost, Tagged(n + 1));
    FreshSend(lost.tx, lost.submitted, lost.freed, Tagged(n + 1));
    var ahead := Apply(Apply(lost, Submit(Tagged(n + 1))), Poll);
    GapToggles(ahead, n);
  }

  lemma StaleSubmissions(n: nat)
    ensures SubmitCount(StaleRun(n)) == n + 2
  {
    var burst := Burst(n, false);
    var one, two := [Submit(Tagged(n)), Poll, LoseUnit], [Submit(Tagged(n + 1)), Poll, DeliverUnit];
    ThreeSubmissions(Tagged(n), [Poll, LoseUnit]);
    ThreeSubmissions(Tagged(n + 1), [Poll, DeliverUnit]);
    BurstSubmissions(n, false, one);
    SubmissionsConcat(burst + one, two);
    SubmissionsConcat(burst + one + two, [ReturnAck, DeliverAck]);
    assert [ReturnAck, DeliverAck][..1] == [ReturnAck] && [ReturnAck][..0] == [];
  }

  lemma StaleRunIsStale(n: nat)
    requires HALF_WINDOW < n <= 126
    ensures !Fresh(Run(NewSystem(Basic), StaleRun(n)))
    ensures Windowed(NewSystem(Basic), StaleRun(n), n + 2)
  {
    var burst := Burst(n, false);
    var lost := burst + [Submit(Tagged(n)), Poll, LoseUnit];
    var gap := lost + [Submit(Tagged(n + 1)), Poll, DeliverUnit];
    AfterBurst(Basic, n, false);
    StaleSweep(Run(NewSystem(Basic), burst), n);
    RunThree(NewSystem(Basic), burst, Submit(Tagged(n)), Poll, LoseUnit);
    RunThree(NewSystem(Basic), lost, Submit(Tagged(n + 1)), Poll, DeliverUnit);
    RunTwo(NewSystem(Basic), gap, ReturnAck, DeliverAck);
    StaleSubmissions(n);
    WindowedBySubmissions(Basic, StaleRun(n), n + 2);
  }

  /** Nothing stale is ever in flight or about to be sent under a bound iff it is at most 66. */
  lemma FreshWindowIsTight(bound: nat)
    ensures BoundKeepsFresh(bound) <==> bound <= FRESH_WINDOW
  {
    if bound <= FRESH_WINDOW {
      forall actions | Windowed(NewSystem(Basic), actions, bound)
        ensures Fresh(Run(NewSystem(Basic), actions))
      {
        WindowedMonotone(NewSystem(Basic), actions, bound, FRESH_WINDOW);
        FreshRun(actions);
      }
    } else {
      var n := HALF_WINDOW + 1;
      StaleRunIsStale(n);
      WindowedMonotone(NewSystem(Basic), StaleRun(n), n + 2, bound);
    }
  }

  // ---- Gaps that are noticed ----

  /**
   * The sequence check asks for retransmission iff the arriving MSU is 1 to 62 ahead of the
   * expected one, or is the last accepted one again, or aliases one of these modulo 128.
   */
  lemma RequestedIff(rx: RxState, k: nat, r: nat, m: Msu)
    requires rx.scheme.Basic? && rx.lastReceived == FsnBefore(r)
    requires k <= r + 127 && r <= k + 127
    ensures ReceiveMsu(rx, Fsn(k), m).1.RetransmissionRequested?
       <==> r < k <= r + 62 || k == r + 127 || k + 1 == r || k + 66 <= r
  {
    ForwardOfIndices(k, r);
  }

  lemma {:induction false} BasicReceiver(actions: seq<Action>)
    ensures Run(NewSystem(Basic), actions).rx.scheme.Basic?
  {
    if actions != [] {
      BasicReceiver(actions[..|actions| - 1]);
    }
  }

  /** In runs with at most 66 outstanding, iff it is 1 to 62 ahead; further, nothing happens. */
  lemma GapIsNoticedIff(actions: seq<Action>)
    requires Windowed(NewSystem(Basic), actions, FRESH_WINDOW)
    requires var s := Run(NewSystem(Basic), actions);
             s.forward != [] && s.forward[0].frame.body.Message?
    ensures var s := Run(NewSystem(Basic), actions);
            var u, (rx', outcome) := s.forward[0], ReceiveMsu(s.rx, s.forward[0].frame.fsn, s.forward[0].frame.body.msu);
            && |s.delivered| <= u.index
            && (outcome.Accepted? <==> u.index == |s.delivered|)
            && (outcome.RetransmissionRequested? <==> |s.delivered| < u.index <= |s.delivered| + 62)
            && (outcome.Discarded? ==> rx' == s.rx)
  {
    var s := Run(NewSystem(Basic), actions);
    FreshRun(actions);
    WindowedMonotone(NewSystem(Basic), actions, FRESH_WINDOW, BASIC_WINDOW);
    HandshakeInvariant(actions);
    ShakenMakesHeadExact(s);
    BasicReceiver(actions);
    assert UnitOk(s, s.forward[0]);
    assert |s.tx.unacked| <= FRESH_WINDOW;
    RequestedIff(s.rx, s.forward[0].index, |s.delivered|, s.forward[0].frame.body.msu);
  }

  lemma ArrivalAfterLosses(s: System, n: nat)
    requires 1 <= n <= 128 && s.delivered == [] && s.toggles == 0
    requires s.rx == RxState(Basic, FsnBefore(0), true, false)
    requires |s.forward| == 1 && s.forward[0].frame.body.Message? && s.forward[0].frame.fsn == Fsn(n)
    ensures var s' := Apply(s, DeliverUnit);
            && s'.toggles == (if n <= 62 || n == 127 then 1 else 0)
            && |s'.delivered| == (if n == 128 then 1 else 0)
  {
    ForwardOfIndices(n, 0);
  }

  /**
   * After n losses in a row the next arrival provokes a request iff n is at most 62 or is 127,
   * and is accepted iff n is 128.
   */
  lemma LossesNoticedIff(n: nat)
    requires 1 <= n <= 128
    ensures var s := Run(NewSystem(Basic), Burst(n, true) + [Submit(Tagged(n)), Poll, DeliverUnit]);
            && s.toggles == (if n <= 62 || n == 127 then 1 else 0)
            && |s.delivered| == (if n == 128 then 1 else 0)
  {
    var s := Run(NewSystem(Basic), Burst(n, true));
    AfterBurst(Basic, n, true);
    RunThree(NewSystem(Basic), Burst(n, true), Submit(Tagged(n)), Poll, DeliverUnit);
    FreshUnit(s, Tagged(n));
    ArrivalAfterLosses(Apply(Apply(s, Submit(Tagged(n))), Poll), n);
  }
}
