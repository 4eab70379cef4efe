/** How a Basic pair comes to be stuck: a late acknowledgement, or a retransmission lost again. */
module Stranding {
  import opened Basics
  import opened Sequence
  import opened Retransmission
  import opened Session
  import opened Handshake
  import opened Windows
  import opened Recovery
  import opened BasicProgress

  // ---- A retransmission lost again ----

  /** The receiver has asked, and the answer has gone past without the MSU it lacks. */
  ghost predicate Deaf(s: System) {
    && s.rx.nackPending && s.tx.fib == s.rx.bib && |s.delivered| < NextIndex(s)
    && (forall i :: 0 <= i < |s.forward| && s.forward[i].frame.body.Message? ==>
          |s.delivered| < s.forward[i].index)
  }

  lemma DeafAfterAck(s: System, s': System)
    requires Shaken(s) && Deaf(s) && s.backward != [] && AckResult(s, s')
    ensures Deaf(s')
  {
    assert EchoOk(s, s.backward[0]);
  }

  lemma DeafAfterArrival(s: System)
    requires Books(s) && Shaken(s) && Deaf(s) && s.forward != []
    ensures Deaf(Apply(s, DeliverUnit)) && Apply(s, DeliverUnit).delivered == s.delivered
  {
    ShakenMakesHeadExact(s);
  }

  lemma DeafKept(s: System, a: Action)
    requires Books(s) && Shaken(s) && Deaf(s)
    ensures Deaf(Apply(s, a)) && Apply(s, a).delivered == s.delivered
  {
    match a
    case Poll => PollSendsNext(s);
    case DeliverUnit => if s.forward != [] { DeafAfterArrival(s); }
    case DeliverAck =>
      if s.backward != [] {
        AckEffect(s);
        DeafAfterAck(s, Apply(s, DeliverAck));
      }
    case Submit(m) =>
    case SendFill(fsn, fib) =>
    case LoseUnit =>
    case ReturnAck =>
    case LoseAck =>
  }

  /**
   * Then nothing is ever delivered again, whatever is submitted, sent or acknowledged, as
   * long as no more than 128 are outstanding.
   */
  lemma {:induction false} DeafForever(s: System, actions: seq<Action>)
    requires Books(s) && Shaken(s) && Deaf(s) && Windowed(s, actions, BASIC_WINDOW)
    ensures var s' := Run(s, actions);
            Books(s') && Shaken(s') && Deaf(s') && s'.delivered == s.delivered
  {
    if actions != [] {
      var before := Run(s, actions[..|actions| - 1]);
      DeafForever(s, actions[..|actions| - 1]);
      ShakenMakesHeadExact(before);
      BooksKept(before, actions[|actions| - 1]);
      ShakenKept(before, actions[|actions| - 1]);
      DeafKept(before, actions[|actions| - 1]);
    }
  }

  /** So it goes whenever the MSU that a sweep starts with is lost. */
  lemma LostResendDeafens(s: System)
    requires Books(s) && s.tx.scheme.Basic? && s.tx.basicCursor == Some(0) && s.freed == |s.delivered|
    requires s.forward == [] && s.rx.nackPending && s.tx.fib == s.rx.bib && s.tx.unacked != []
    ensures Deaf(Apply(Apply(s, Poll), LoseUnit))
  {
    PollSendsNext(s);
    assert Apply(s, Poll).forward == [NextUnit(s)];
  }

  // ---- Runs that reach such states ----

  /** n MSUs sent and none delivered, and the receiver has asked for the first. */
  ghost predicate Gapped(s: System, n: nat) {
    && Books(s)
    && s.tx.scheme.Basic? && s.tx.basicCursor == None && s.tx.fib
    && s.rx == RxState(Basic, FsnBefore(0), false, true)
    && s.forward == [] && s.backward == []
    && s.freed == 0 && s.tx.pending == [] && |s.tx.unacked| == n && s.delivered == []
  }

  lemma FirstGap(s: System)
    requires Outstanding(s, Basic, 1, true)
    ensures Gapped(Apply(Apply(Apply(s, Submit(Tagged(1))), Poll), DeliverUnit), 2)
  {
    var sent := Apply(Apply(s, Submit(Tagged(1))), Poll);
    OneMoreInTransit(s, Basic, 1, true);
    WindowMakesFsnExact(1, 0);
    BooksAfterDelivery(sent);
    ForwardOfIndices(1, 0);
  }

  lemma GapGoesOn(s: System, n: nat)
    requires Gapped(s, n) && 1 <= n <= 126
    ensures Gapped(Apply(Apply(Apply(s, Submit(Tagged(n))), Poll), DeliverUnit), n + 1)
  {
    var sent := Apply(Apply(s, Submit(Tagged(n))), Poll);
    FreshUnit(s, Tagged(n));
    FreshSend(s.tx, s.submitted, s.freed, Tagged(n));
    BooksAfterFresh(s, Tagged(n));
    WindowMakesFsnExact(n, 0);
    BooksAfterDelivery(sent);
    ForwardOfIndices(n, 0);
  }

  lemma GapIsAnswered(s: System, n: nat)
    requires Gapped(s, n) && 1 <= n <= HALF_WINDOW
    ensures var s' := Apply(Apply(s, ReturnAck), DeliverAck);
            && Swept(s', 0, 0) && s'.Numbered() == n
            && s'.delivered == [] && s'.tx.pending == [] && s'.rx == s.rx
  {
    var told := Apply(s, ReturnAck);
    BooksKept(s, ReturnAck);
    BooksAfterAck(told);
    AckIsExact(0, 0, n);
    AckAdvances(told.(backward := []), s.rx.lastReceived, s.rx.bib);
  }

  /** The first of the MSUs is lost and the second arrives. */
  function GapRun(): seq<Action> {
    Burst(1, true) + [Submit(Tagged(1)), Poll, DeliverUnit]
  }

  /** A third arrives and the request is answered; the sweep's second unit is acknowledged. */
  function LateAckRun(): seq<Action> {
    GapRun() + [Submit(Tagged(2)), Poll, DeliverUnit] + [ReturnAck, DeliverAck]
      + [Poll, DeliverUnit] + [Poll, DeliverUnit] + [ReturnAck, DeliverAck]
  }

  /** The request is answered, and the first unit of the answer is lost. */
  function LostAgainRun(): seq<Action> {
    GapRun() + [ReturnAck, DeliverAck] + [Poll, LoseUnit]
  }

  lemma AfterGapRun()
    ensures Gapped(Run(NewSystem(Basic), GapRun()), 2)
  {
    AfterBurst(Basic, 1, true);
    FirstGap(Run(NewSystem(Basic), Burst(1, true)));
    RunThree(NewSystem(Basic), Burst(1, true), Submit(Tagged(1)), Poll, DeliverUnit);
  }

  /** A late acknowledgement before the last unit of a sweep of three leaves that unit behind. */
  lemma LateAckStrands(s: System)
    requires Swept(s, 0, 0) && s.Numbered() - |s.delivered| == 3 && s.tx.pending == []
    ensures var s' := Round(Round(s, false), true);
            && Stuck(s') && !s'.rx.nackPending && s'.forward == [] && s'.backward == []
            && |s'.delivered| == |s.delivered| + 2 && |s'.tx.unacked| == 1 && s'.tx.pending == []
  {
    SweepRound(s, 0, false);
    SweepRound(Round(s, false), 1, true);
    SweepRoundAccepts(Round(s, false), 1, true);
  }

  lemma AfterLateAckRun()
    ensures var s := Run(NewSystem(Basic), LateAckRun());
            && Stuck(s) && !s.rx.nackPending && s.forward == [] && s.backward == []
            && |s.delivered| == 2 && |s.tx.unacked| == 1 && s.tx.pending == []
  {
    var gap := GapRun();
    var longer := gap + [Submit(Tagged(2)), Poll, DeliverUnit];
    var swept := longer + [ReturnAck, DeliverAck];
    AfterGapRun();
    GapGoesOn(Run(NewSystem(Basic), gap), 2);
    RunThree(NewSystem(Basic), gap, Submit(Tagged(2)), Poll, DeliverUnit);
    GapIsAnswered(Run(NewSystem(Basic), longer), 3);
    RunTwo(NewSystem(Basic), longer, ReturnAck, DeliverAck);
    LateAckStrands(Run(NewSystem(Basic), swept));
    RunTwo(NewSystem(Basic), swept, Poll, DeliverUnit);
    RunTwo(NewSystem(Basic), swept + [Poll, DeliverUnit], Poll, DeliverUnit);
    RunTwo(NewSystem(Basic), swept + [Poll, DeliverUnit] + [Poll, DeliverUnit], ReturnAck, DeliverAck);
  }

  lemma {:induction false} LateAckSubmissions()
    ensures SubmitCount(LateAckRun()) == 3
  {
    var first, second := [Submit(Tagged(1)), Poll, DeliverUnit], [Submit(Tagged(2)), Poll, DeliverUnit];
    ThreeSubmissions(Tagged(1), [Poll, DeliverUnit]);
    ThreeSubmissions(Tagged(2), [Poll, DeliverUnit]);
    BurstSubmissions(1, true, first);
    SubmissionsConcat(GapRun(), second);
    SubmissionsConcat(GapRun() + second, [ReturnAck, DeliverAck]);
    var swept := GapRun() + second + [ReturnAck, DeliverAck];
    SubmissionsConcat(swept, [Poll, DeliverUnit]);
    SubmissionsConcat(swept + [Poll, DeliverUnit], [Poll, DeliverUnit]);
    SubmissionsConcat(swept + [Poll, DeliverUnit] + [Poll, DeliverUnit], [ReturnAck, DeliverAck]);
    assert [ReturnAck, DeliverAck][..1] == [ReturnAck] && [ReturnAck][..0] == [];
    assert [Poll, DeliverUnit][..1] == [Poll] && [Poll][..0] == [];
  }

  /** With three submissions and one loss, the third MSU is never delivered on a perfect line. */
  lemma LateAckNeverRecovers(schedule: seq<bool>)
    ensures var s := Run(NewSystem(Basic), LateAckRun());
            |s.submitted| == 3 && |Rounds(s, schedule).delivered| == 2
  {
    var s := Run(NewSystem(Basic), LateAckRun());
    AfterLateAckRun();
    LateAckSubmissions();
    WindowedBySubmissions(Basic, LateAckRun(), BASIC_WINDOW);
    HandshakeInvariant(LateAckRun());
    BasicReceiver(LateAckRun());
    StuckForever(s, schedule);
  }

  /** Once another MSU is submitted, the gap shows and everything can be delivered. */
  lemma LateAckThenAnotherRecovers(m: Msu) returns (schedule: seq<bool>)
    ensures var s := Run(NewSystem(Basic), LateAckRun() + [Submit(m)]);
            |s.submitted| == 4 && Rounds(s, schedule).delivered == s.submitted
  {
    var before, actions := Run(NewSystem(Basic), LateAckRun()), LateAckRun() + [Submit(m)];
    AfterLateAckRun();
    LateAckSubmissions();
    SubmissionsConcat(LateAckRun(), [Submit(m)]);
    assert [Submit(m)][..0] == [];
    WindowedBySubmissions(Basic, actions, BASIC_WINDOW);
    HandshakeInvariant(actions);
    BasicReceiver(actions);
    RunConcat(NewSystem(Basic), LateAckRun(), [Submit(m)]);
    RunOne(before, Submit(m));
    WindowedBySubmissions(Basic, LateAckRun(), BASIC_WINDOW);
    HandshakeInvariant(LateAckRun());
    schedule := RestingDelivers(Run(NewSystem(Basic), actions));
  }

  lemma AfterLostAgainRun()
    ensures var s := Run(NewSystem(Basic), LostAgainRun());
            Deaf(s) && s.delivered == []
  {
    var gap := GapRun();
    var swept := gap + [ReturnAck, DeliverAck];
    AfterGapRun();
    GapIsAnswered(Run(NewSystem(Basic), gap), 2);
    RunTwo(NewSystem(Basic), gap, ReturnAck, DeliverAck);
    LostResendDeafens(Run(NewSystem(Basic), swept));
    RunTwo(NewSystem(Basic), swept, Poll, LoseUnit);
  }

  lemma {:induction false} WindowedSplit(s: System, x: seq<Action>, y: seq<Action>, bound: nat)
    requires Windowed(s, x + y, bound)
    ensures Windowed(s, x, bound) && Windowed(Run(s, x), y, bound)
  {
    if y == [] {
      assert x + y == x;
    } else {
      assert (x + y)[..|x + y| - 1] == x + y[..|y| - 1];
      WindowedSplit(s, x, y[..|y| - 1], bound);
      RunConcat(s, x, y);
    }
  }

  /**
   * When the answer to a request loses its first unit, nothing is delivered any more while
   * at most 128 are outstanding, whatever is submitted and however reliable the line becomes.
   */
  lemma LostAgainNeverRecovers(more: seq<Action>)
    requires Windowed(NewSystem(Basic), LostAgainRun() + more, BASIC_WINDOW)
    ensures Run(NewSystem(Basic), LostAgainRun() + more).delivered == []
  {
    AfterLostAgainRun();
    WindowedSplit(NewSystem(Basic), LostAgainRun(), more, BASIC_WINDOW);
    HandshakeInvariant(LostAgainRun());
    DeafForever(Run(NewSystem(Basic), LostAgainRun()), more);
    RunConcat(NewSystem(Basic), LostAgainRun(), more);
  }
}
