/**
 * When the Basic method can still deliver everything on a line that loses nothing any more:
 * the exact condition on the state in which the losses left the two ends.
 */
module BasicProgress {
  import opened Basics
  import opened Sequence
  import opened Retransmission
  import opened TransmitBuffer
  import opened Session
  import opened Handshake
  import opened Windows
  import opened Recovery

  /** Empty channels, after a run within the window. */
  ghost predicate Resting(s: System) {
    && Books(s) && Shaken(s)
    && s.rx.scheme.Basic?
    && s.forward == [] && s.backward == []
  }

  /**
   * The transmitter is past an MSU that the receiver lacks, and the receiver will not ask for
   * it: it has asked already; or nothing more comes that would show the gap; or the next MSU,
   * 128 ahead, passes for the one it lacks; or all that comes is too far ahead to show the gap
   * and not far enough to look like a repetition. A request not seen yet is answered, unless
   * the next MSU passes for the one requested and is another.
   */
  ghost predicate Stuck(s: System) {
    var d, n := |s.delivered|, NextIndex(s);
    if s.tx.fib == s.rx.bib then
      d < n && (s.rx.nackPending || n == |s.submitted| || n == d + 128
                || (d + 62 < n && |s.submitted| < d + 128))
    else
      d + 128 == n < |s.submitted| && s.submitted[d] != s.submitted[n]
  }

  lemma RoundFirst(s: System, acked: bool, rest: seq<bool>)
    ensures Rounds(s, [acked] + rest) == Rounds(Round(s, acked), rest)
  {
    RoundsSplit(s, [acked], rest);
    assert [acked][..0] == [];
    assert Rounds(s, [acked]) == Round(s, acked);
  }

  // ---- A stuck pair stays stuck ----

  /** What the sequence numbers alone tell, whatever has been delivered. */
  ghost predicate Tracked(s: System) {
    && s.tx.scheme.Basic? && s.rx.scheme.Basic?
    && Conserved(s.tx, s.submitted, s.freed)
    && s.forward == [] && s.backward == []
    && s.rx.lastReceived == FsnBefore(|s.delivered|) && s.tx.fib == s.rx.bib
  }

  /** The transmitter has gone past the expected MSU. */
  ghost predicate Passing(s: System) {
    var d, n := |s.delivered|, NextIndex(s);
    && Tracked(s)
    && s.freed <= d < n <= d + 128 && (Sweeping(s.tx) ==> s.Numbered() <= d + 128)
    && (s.rx.nackPending || n == |s.submitted| || (d + 62 < n && |s.submitted| < d + 128))
  }

  /** The receiver takes each MSU for the one 128 before it. */
  ghost predicate Shifted(s: System) {
    Tracked(s) && !Sweeping(s.tx) && NextIndex(s) == |s.delivered| + 128
  }

  ghost predicate Astray(s: System) {
    Passing(s) || Shifted(s)
  }

  /** The next index is in flight, or a fill-in unit if there is none. */
  ghost predicate SendsNext(s: System, sent: System) {
    var k := NextIndex(s);
    && sent == s.(tx := sent.tx, forward := sent.forward) && |sent.forward| == 1
    && sent.tx.scheme.Basic? && sent.tx.fib == s.tx.fib && Conserved(sent.tx, s.submitted, s.freed)
    && s.Numbered() <= sent.Numbered() <= s.Numbered() + 1
    && (Sweeping(sent.tx) ==> Sweeping(s.tx) && sent.Numbered() == s.Numbered())
    && sent.forward[0].index == k
    && (if k < |s.submitted|
        then sent.forward[0].frame == TxFrame(Fsn(k), s.tx.fib, Message(s.submitted[k])) && NextIndex(sent) == k + 1
        else sent.forward[0].frame.body.Fill? && NextIndex(sent) == k)
  }

  lemma PollsNext(s: System)
    requires Conserved(s.tx, s.submitted, s.freed) && s.tx.scheme.Basic? && s.forward == []
    ensures SendsNext(s, Apply(s, Poll))
  {
    PollConserved(s.tx, s.submitted, s.freed);
    PollSendsNext(s);
    assert Apply(s, Poll).forward == [NextUnit(s)];
  }

  /** An MSU with the expected number is accepted, whichever it is. */
  lemma NumberAccepted(s: System, m: Msu)
    requires s.forward != [] && s.forward[0].frame.body == Message(m)
    requires SeqForward(s.forward[0].frame.fsn, s.rx.lastReceived) == 1
    ensures Apply(s, DeliverUnit)
         == s.(forward := s.forward[1..],
               rx := s.rx.(lastReceived := s.forward[0].frame.fsn, nackPending := false),
               delivered := s.delivered + [m])
  {
  }

  /** Any other changes nothing when a request is pending or none is called for. */
  lemma NumberPassedOver(s: System, m: Msu)
    requires s.forward != [] && s.forward[0].frame.body == Message(m)
    requires SeqForward(s.forward[0].frame.fsn, s.rx.lastReceived) != 1
    requires s.rx.nackPending || SeqForward(s.forward[0].frame.fsn, s.rx.lastReceived) >= SEQ_HALF
    ensures Apply(s, DeliverUnit) == s.(forward := s.forward[1..])
  {
  }

  /** The MSU arrives, and the sequence check takes it for what its number says. */
  lemma PassingArrival(s: System, sent: System)
    requires Passing(s) && SendsNext(s, sent)
    ensures var s' := Apply(sent, DeliverUnit);
            && Astray(s') && s'.submitted == s.submitted
            && (|s.submitted| <= |s.delivered| + 128 ==>
                  Passing(s') && s'.delivered == s.delivered && s'.rx == s.rx)
  {
    var d, k := |s.delivered|, NextIndex(s);
    if k < |s.submitted| {
      if k == d + 128 {
        NumberRepeats(d);
        NumberAccepted(sent, s.submitted[k]);
      } else {
        ForwardOfIndices(k, d);
        NumberPassedOver(sent, s.submitted[k]);
      }
    }
  }

  lemma ShiftedArrival(s: System, sent: System)
    requires Shifted(s) && SendsNext(s, sent)
    ensures var s' := Apply(sent, DeliverUnit);
            Shifted(s') && s'.submitted == s.submitted
  {
    if NextIndex(s) < |s.submitted| {
      NumberRepeats(|s.delivered|);
      NumberAccepted(sent, s.submitted[NextIndex(s)]);
    }
  }

  lemma TrackedAck(s: System)
    requires Tracked(s)
    ensures var s' := Apply(Apply(s, ReturnAck), DeliverAck);
            && Tracked(s') && s'.rx == s.rx && s'.delivered == s.delivered && s'.submitted == s.submitted
            && s'.Numbered() == s.Numbered() && NextIndex(s) <= NextIndex(s')
            && (Sweeping(s'.tx) ==> Sweeping(s.tx))
            && (s.freed <= |s.delivered| ==> s'.freed <= |s.delivered|)
  {
    AckReleases(Apply(s, ReturnAck));
    AckAdvances(s, s.rx.lastReceived, s.rx.bib);
    if s.freed <= |s.delivered| {
      AckNeverAhead(s.freed, |s.delivered|, |s.tx.unacked|);
    }
  }

  lemma AstrayAck(s: System)
    requires Astray(s)
    ensures var s' := Apply(Apply(s, ReturnAck), DeliverAck);
            && Astray(s') && (Passing(s) ==> Passing(s'))
            && s'.delivered == s.delivered && s'.submitted == s.submitted
  {
    TrackedAck(s);
  }

  lemma AstrayArrival(s: System)
    requires Astray(s)
    ensures var s' := Apply(Apply(s, Poll), DeliverUnit);
            && Astray(s') && s'.submitted == s.submitted
            && (Passing(s) && |s.submitted| <= |s.delivered| + 128 ==>
                  Passing(s') && s'.delivered == s.delivered)
  {
    PollsNext(s);
    if Passing(s) {
      PassingArrival(s, Apply(s, Poll));
    } else {
      ShiftedArrival(s, Apply(s, Poll));
    }
  }

  /** Everything is never delivered; within 128 of what is delivered, nothing more is. */
  lemma {:induction false} AstrayForever(s: System, schedule: seq<bool>)
    requires Astray(s)
    ensures var s' := Rounds(s, schedule);
            && Astray(s') && s'.submitted == s.submitted && |s'.delivered| < |s.submitted|
            && (Passing(s) && |s.submitted| <= |s.delivered| + 128 ==>
                  Passing(s') && s'.delivered == s.delivered)
  {
    if schedule != [] {
      var before := Rounds(s, schedule[..|schedule| - 1]);
      AstrayForever(s, schedule[..|schedule| - 1]);
      AstrayArrival(before);
      if schedule[|schedule| - 1] {
        AstrayAck(Apply(Apply(before, Poll), DeliverUnit));
      }
    }
  }

  lemma RoundOnlyAdds(s: System, acked: bool)
    requires s.forward == []
    ensures var s' := Round(s, acked);
            s'.forward == [] && s'.submitted == s.submitted && s.delivered <= s'.delivered
  {
  }

  lemma {:induction false} RoundsOnlyAdd(s: System, schedule: seq<bool>)
    requires s.forward == []
    ensures var s' := Rounds(s, schedule);
            s'.forward == [] && s'.submitted == s.submitted && s.delivered <= s'.delivered
  {
    if schedule != [] {
      RoundsOnlyAdd(s, schedule[..|schedule| - 1]);
      RoundOnlyAdds(Rounds(s, schedule[..|schedule| - 1]), schedule[|schedule| - 1]);
    }
  }

  /** A request is waiting, and the MSU 128 ahead arrives first. */
  ghost predicate Mistaking(s: System) {
    && Resting(s) && s.tx.fib != s.rx.bib
    && |s.delivered| + 128 == NextIndex(s) < |s.submitted|
  }

  ghost predicate MistakeMade(s: System, s': System) {
    var d := |s.delivered|;
    && d + 128 < |s.submitted|
    && s' == s.(tx := s'.tx, rx := s.rx.(lastReceived := Fsn(d), nackPending := false),
                delivered := s.delivered + [s.submitted[d + 128]])
    && s'.tx.scheme.Basic? && s'.tx.fib == s.tx.fib
    && Conserved(s'.tx, s.submitted, s.freed) && s.freed == d && |s'.tx.unacked| == 129
  }

  lemma MistakenForExpected(s: System, sent: System)
    requires Mistaking(s) && SendsNext(s, sent)
    ensures MistakeMade(s, Apply(sent, DeliverUnit))
  {
    NumberRepeats(|s.delivered|);
    NumberAccepted(sent, s.submitted[NextIndex(s)]);
  }

  lemma MistakenArrival(s: System)
    requires Mistaking(s)
    ensures MistakeMade(s, Apply(Apply(s, Poll), DeliverUnit))
  {
    PollsNext(s);
    MistakenForExpected(s, Apply(s, Poll));
  }

  lemma MistakenForever(s: System, schedule: seq<bool>)
    requires Mistaking(s) && s.submitted[|s.delivered|] != s.submitted[NextIndex(s)]
    ensures Rounds(s, schedule).delivered != s.submitted
  {
    if schedule != [] {
      MistakenArrival(s);
      assert [schedule[0]] + schedule[1..] == schedule;
      RoundFirst(s, schedule[0], schedule[1..]);
      RoundDelivers(s, schedule[0]);
      RoundsOnlyAdd(Round(s, schedule[0]), schedule[1..]);
      assert Round(s, schedule[0]).delivered[|s.delivered|] == s.submitted[NextIndex(s)];
    }
  }

  lemma StuckForever(s: System, schedule: seq<bool>)
    requires Resting(s) && Stuck(s)
    ensures Rounds(s, schedule).delivered != s.submitted
    ensures s.tx.fib == s.rx.bib && |s.submitted| <= |s.delivered| + 128 ==>
              Rounds(s, schedule).delivered == s.delivered
  {
    if s.tx.fib == s.rx.bib {
      assert Astray(s);
      AstrayForever(s, schedule);
    } else {
      MistakenForever(s, schedule);
    }
  }

  // ---- Every other resting pair delivers everything ----

  lemma BooksPoll(s: System)
    requires Books(s) && s.tx.scheme.Basic? && s.forward == []
    ensures Books(Apply(s, Poll)) && SendsNext(s, Apply(s, Poll))
  {
    PollsNext(s);
    BooksAfterPoll(s);
  }

  /** The next unit sent is the one expected. */
  ghost predicate OnTrack(s: System) {
    && Books(s)
    && s.tx.scheme.Basic? && s.tx.fib == s.rx.bib
    && s.forward == [] && s.backward == []
    && NextIndex(s) == |s.delivered|
  }

  lemma OnTrackRound(s: System)
    requires OnTrack(s) && |s.delivered| < |s.submitted|
    ensures var s' := Round(s, false);
            OnTrack(s') && s'.submitted == s.submitted && |s'.delivered| == |s.delivered| + 1
  {
    BooksPoll(s);
    WindowMakesFsnExact(|s.delivered|, |s.delivered|);
    BooksAfterDelivery(Apply(s, Poll));
  }

  lemma {:induction false} OnTrackDelivers(s: System) returns (schedule: seq<bool>)
    requires OnTrack(s)
    ensures Rounds(s, schedule).delivered == s.submitted
    decreases |s.submitted| - |s.delivered|
  {
    schedule := [];
    if |s.delivered| < |s.submitted| {
      OnTrackRound(s);
      var rest := OnTrackDelivers(Round(s, false));
      schedule := [false] + rest;
      RoundFirst(s, false, rest);
    }
  }

  /** An MSU other than the expected one arrives: the receiver asks for the expected or does nothing. */
  lemma OtherArrival(s: System, k: nat, m: Msu)
    requires Books(s) && s.forward != [] && s.forward[0].index == k
    requires s.forward[0].frame.body == Message(m) && s.forward[0].frame.fsn == Fsn(k)
    requires k != |s.delivered| && k <= |s.delivered| + 127 && |s.delivered| <= k + 127
    ensures var s' := Apply(s, DeliverUnit);
            && Books(s')
            && s' == s.(forward := s.forward[1..], rx := s'.rx, toggles := s'.toggles)
            && (if !s.rx.nackPending && ReceiveMsu(s.rx, Fsn(k), m).1.RetransmissionRequested?
                then s'.rx == s.rx.(bib := !s.rx.bib, nackPending := true)
                else s'.rx == s.rx)
  {
    WindowMakesFsnExact(k, |s.delivered|);
    BooksAfterDelivery(s);
  }

  /** The sweep that answers a request has not come to the expected MSU yet. */
  ghost predicate CatchingUp(s: System) {
    && Books(s)
    && s.tx.scheme.Basic? && s.tx.fib == s.rx.bib && s.rx.nackPending
    && s.forward == [] && s.backward == []
    && NextIndex(s) <= |s.delivered| < s.Numbered()
    && |s.delivered| <= s.freed + 127
  }

  lemma CatchUpRound(s: System)
    requires CatchingUp(s) && NextIndex(s) < |s.delivered|
    ensures var s' := Round(s, false);
            CatchingUp(s') && s'.submitted == s.submitted && s'.delivered == s.delivered
            && NextIndex(s') == NextIndex(s) + 1
  {
    BooksPoll(s);
    OtherArrival(Apply(s, Poll), NextIndex(s), s.submitted[NextIndex(s)]);
  }

  lemma {:induction false} CatchUp(s: System) returns (schedule: seq<bool>)
    requires CatchingUp(s)
    ensures Rounds(s, schedule).delivered == s.submitted
    decreases |s.delivered| - NextIndex(s)
  {
    if NextIndex(s) == |s.delivered| {
      schedule := OnTrackDelivers(s);
    } else {
      CatchUpRound(s);
      var rest := CatchUp(Round(s, false));
      schedule := [false] + rest;
      RoundFirst(s, false, rest);
    }
  }

  /** A request waiting to be seen, with the requested MSU still buffered. */
  ghost predicate Asking(s: System) {
    && Books(s)
    && s.tx.scheme.Basic? && s.tx.fib != s.rx.bib && s.rx.nackPending
    && s.forward == [] && s.backward == []
    && |s.delivered| < s.Numbered() && |s.delivered| <= s.freed + 127
  }

  lemma AskingIsAnswered(s: System)
    requires Asking(s)
    ensures var s' := Apply(Apply(s, ReturnAck), DeliverAck);
            CatchingUp(s') && s'.submitted == s.submitted
  {
    BooksKept(s, ReturnAck);
    AckEffect(Apply(s, ReturnAck));
    BooksAfterAck(Apply(s, ReturnAck));
  }

  /** One round whose unit leaves the receiver asking, and then what answers it. */
  lemma AskedDelivers(s: System) returns (schedule: seq<bool>)
    requires var s' := Apply(Apply(s, Poll), DeliverUnit); Asking(s') && s'.submitted == s.submitted
    ensures Rounds(s, schedule).delivered == s.submitted
  {
    AskingIsAnswered(Apply(Apply(s, Poll), DeliverUnit));
    var rest := CatchUp(Round(s, true));
    schedule := [true] + rest;
    RoundFirst(s, true, rest);
  }

  /** A unit that is not the expected one keeps the books. */
  lemma OffTrackBooks(s: System)
    requires Books(s) && s.tx.scheme.Basic? && s.forward == []
    requires |s.delivered| < NextIndex(s)
    requires NextIndex(s) <= |s.delivered| + 127 || NextIndex(s) == |s.submitted|
    ensures var s' := Apply(Apply(s, Poll), DeliverUnit);
            && Books(s') && s'.tx.scheme.Basic? && s'.tx.fib == s.tx.fib && s.Numbered() <= s'.Numbered()
  {
    BooksPoll(s);
    if NextIndex(s) < |s.submitted| {
      OtherArrival(Apply(s, Poll), NextIndex(s), s.submitted[NextIndex(s)]);
    } else {
      BooksAfterLoss(Apply(s, Poll));
    }
  }

  lemma WaitingAsks(s: System)
    requires Resting(s) && s.tx.fib != s.rx.bib
    requires NextIndex(s) <= |s.delivered| + 127 || NextIndex(s) == |s.submitted|
    ensures var s' := Apply(Apply(s, Poll), DeliverUnit); Asking(s') && s'.submitted == s.submitted
  {
    OffTrackDeliversNothing(s);
    OffTrackBooks(s);
  }

  /** A gap that has not been noticed, and MSUs still to come. */
  ghost predicate Gaping(s: System) {
    && Books(s)
    && s.tx.scheme.Basic? && s.rx.scheme.Basic? && s.tx.fib == s.rx.bib && !s.rx.nackPending
    && s.forward == [] && s.backward == []
    && |s.delivered| < NextIndex(s) <= |s.delivered| + 127 && NextIndex(s) < |s.submitted|
    && |s.delivered| <= s.freed + 127
  }

  lemma GapingArrival(s: System)
    requires Gaping(s)
    ensures var s' := Apply(Apply(s, Poll), DeliverUnit);
            && s'.submitted == s.submitted && s'.delivered == s.delivered
            && (if NextIndex(s) <= |s.delivered| + 62 || NextIndex(s) == |s.delivered| + 127
                then Asking(s')
                else s'.rx == s.rx && Books(s') && NextIndex(s') == NextIndex(s) + 1)
            && s'.tx.scheme.Basic? && s'.tx.fib == s.tx.fib && s'.freed == s.freed
            && s'.forward == [] && s'.backward == []
  {
    var k := NextIndex(s);
    BooksPoll(s);
    OtherArrival(Apply(s, Poll), k, s.submitted[k]);
    RequestedIff(s.rx, k, |s.delivered|, s.submitted[k]);
  }

  lemma {:induction false} GapingDelivers(s: System) returns (schedule: seq<bool>)
    requires Gaping(s)
    requires NextIndex(s) <= |s.delivered| + 62 || |s.delivered| + 128 <= |s.submitted|
    ensures Rounds(s, schedule).delivered == s.submitted
    decreases |s.delivered| + 127 - NextIndex(s)
  {
    GapingArrival(s);
    if NextIndex(s) <= |s.delivered| + 62 || NextIndex(s) == |s.delivered| + 127 {
      schedule := AskedDelivers(s);
    } else {
      var rest := GapingDelivers(Round(s, false));
      schedule := [false] + rest;
      RoundFirst(s, false, rest);
    }
  }

  /** The sweep that answers a request starts at the expected MSU if it is the oldest buffered. */
  lemma SweepFromHere(s: System)
    requires Books(s) && s.tx.scheme.Basic? && s.tx.fib != s.rx.bib
    requires s.forward == [] && s.backward == []
    requires |s.delivered| <= s.freed + HALF_WINDOW && |s.delivered| < s.Numbered()
    ensures var s' := Apply(Apply(s, ReturnAck), DeliverAck); OnTrack(s') && s'.submitted == s.submitted
  {
    var told := Apply(s, ReturnAck);
    BooksKept(s, ReturnAck);
    AckIsExact(s.freed, |s.delivered|, |s.tx.unacked|);
    AckReleases(told);
    AckEffect(told);
    BooksAfterAck(told);
  }

  /** The MSU that passes for the requested one is the same, so no harm is done. */
  lemma HarmlessMistake(s: System)
    requires Mistaking(s) && s.submitted[|s.delivered|] == s.submitted[NextIndex(s)]
    ensures OnTrack(Round(s, true)) && Round(s, true).submitted == s.submitted
  {
    var d, arrived := |s.delivered|, Apply(Apply(s, Poll), DeliverUnit);
    MistakenArrival(s);
    assert arrived.delivered == s.submitted[..d + 1];
    NumberRepeats(d);
    SweepFromHere(arrived);
  }

  lemma RestingDelivers(s: System) returns (schedule: seq<bool>)
    requires Resting(s) && !Stuck(s)
    ensures Rounds(s, schedule).delivered == s.submitted
  {
    if s.tx.fib != s.rx.bib {
      if |s.delivered| + 128 == NextIndex(s) < |s.submitted| {
        HarmlessMistake(s);
        var rest := OnTrackDelivers(Round(s, true));
        schedule := [true] + rest;
        RoundFirst(s, true, rest);
      } else {
        WaitingAsks(s);
        schedule := AskedDelivers(s);
      }
    } else if NextIndex(s) == |s.delivered| {
      schedule := OnTrackDelivers(s);
    } else if NextIndex(s) < |s.delivered| {
      schedule := CatchUp(s);
    } else {
      schedule := GapingDelivers(s);
    }
  }

  /**
   * From a resting state some schedule of loss-free rounds delivers everything submitted iff
   * the state is not stuck.
   */
  lemma RestingDeliversIff(s: System)
    requires Resting(s)
    ensures (exists schedule :: Rounds(s, schedule).delivered == s.submitted) <==> !Stuck(s)
  {
    if Stuck(s) {
      forall schedule ensures Rounds(s, schedule).delivered != s.submitted {
        StuckForever(s, schedule);
      }
    } else {
      var schedule := RestingDelivers(s);
    }
  }

  /** So it is in every Basic run with at most 128 outstanding that comes to rest. */
  lemma BasicDeliversIff(actions: seq<Action>)
    requires Windowed(NewSystem(Basic), actions, BASIC_WINDOW)
    requires var s := Run(NewSystem(Basic), actions); s.forward == [] && s.backward == []
    ensures var s := Run(NewSystem(Basic), actions);
            (exists schedule :: Rounds(s, schedule).delivered == s.submitted) <==> !Stuck(s)
  {
    HandshakeInvariant(actions);
    BasicReceiver(actions);
    RestingDeliversIff(Run(NewSystem(Basic), actions));
  }
}
