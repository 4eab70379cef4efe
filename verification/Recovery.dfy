/**
 * Basic-method recovery: after a negative acknowledgement reaches the transmitter, rounds
 * without further loss deliver one MSU each, first those outstanding and then those pending,
 * iff during the sweep no acknowledgement follows an unacknowledged unit.
 */
module Recovery {
  import opened Basics
  import opened Sequence
  import opened Retransmission
  import opened TransmitBuffer
  import opened Session
  import opened Handshake

  /** One unit sent and delivered, and possibly the receiver's acknowledgement returned. */
  function Round(s: System, acked: bool): System {
    var arrived := Apply(Apply(s, Poll), DeliverUnit);
    if acked then Apply(Apply(arrived, ReturnAck), DeliverAck) else arrived
  }

  function Rounds(s: System, schedule: seq<bool>): System {
    if schedule == [] then s
    else Round(Rounds(s, schedule[..|schedule| - 1]), schedule[|schedule| - 1])
  }

  predicate SendsIndex(s: System, k: nat) {
    NextUnit(s).frame.body.Message? && NextUnit(s).index == k
  }

  /** Round by round, exactly the MSUs from the first one not delivered are sent, in order. */
  ghost predicate Resends(s: System, schedule: seq<bool>) {
    schedule != [] ==>
      var before := schedule[..|schedule| - 1];
      Resends(s, before) && SendsIndex(Rounds(s, before), |s.delivered| + |before|)
  }

  /** No acknowledgement follows an unacknowledged unit, except after the last one. */
  ghost predicate NeverLate(schedule: seq<bool>) {
    forall i :: 0 < i < |schedule| - 1 && schedule[i] ==> schedule[i - 1]
  }

  /** None is late within the first r rounds. */
  ghost predicate Timely(schedule: seq<bool>, r: int) {
    forall i :: 0 < i < r - 1 && i < |schedule| && schedule[i] ==> schedule[i - 1]
  }

  /** How many MSUs have not been delivered, of those numbered and of all. */
  function ToSweep(s: System): int {
    s.Numbered() - |s.delivered|
  }

  function ToDeliver(s: System): int {
    |s.submitted| - |s.delivered|
  }

  /** A sweep under way on empty channels, `lead` ahead of what the receiver expects. */
  ghost predicate Swept(s: System, cursor: nat, lead: nat) {
    && Books(s)
    && s.tx.scheme.Basic? && s.tx.fib == s.rx.bib
    && s.forward == [] && s.backward == []
    && |s.tx.unacked| <= HALF_WINDOW
    && s.tx.basicCursor == Some(cursor)
    && s.freed + cursor == |s.delivered| + lead
  }

  /** The receiver is waiting after a toggle that the transmitter has not seen. */
  ghost predicate Stalled(s: System) {
    && Books(s) && Shaken(s)
    && |s.tx.unacked| <= HALF_WINDOW
    && s.forward == [] && s.backward == []
    && s.rx.bib != s.tx.fib
  }

  /** One acknowledgement releases everything accepted and starts the sweep. */
  lemma NackStartsSweep(s: System)
    requires Stalled(s)
    ensures var s' := Apply(Apply(s, ReturnAck), DeliverAck);
            && Swept(s', 0, 0)
            && s'.freed == |s'.delivered| < s'.Numbered() == s.Numbered()
            && s'.delivered == s.delivered && s'.submitted == s.submitted
  {
    var s1 := Apply(s, ReturnAck);
    BooksKept(s, ReturnAck);
    BooksAfterAck(s1);
    AckIsExact(s.freed, |s.delivered|, |s.tx.unacked|);
    AckAdvances(s1.(backward := []), s.rx.lastReceived, s.rx.bib);
  }

  /** What an acknowledgement does during a sweep: release all accepted, step back by one. */
  lemma AckDuringSweep(s: System, cursor: nat, lead: nat)
    requires Swept(s, cursor, lead) && lead < cursor
    ensures var s' := Apply(Apply(s, ReturnAck), DeliverAck);
            && Swept(s', cursor - 1, cursor - 1)
            && s'.freed == |s'.delivered| && s'.Numbered() == s.Numbered()
            && s'.delivered == s.delivered && s'.submitted == s.submitted && s'.rx == s.rx
  {
    var s1 := Apply(s, ReturnAck);
    BooksKept(s, ReturnAck);
    BooksAfterAck(s1);
    var a := s1.backward[0];
    AckIsExact(s.freed, |s.delivered|, |s.tx.unacked|);
    AckConserved(s.tx, s.submitted, s.freed, a.bsn, a.bib);
  }

  /** A sweep that is not ahead sends the expected MSU, which is accepted. */
  lemma SweepSendsExpected(s: System, cursor: nat)
    requires Swept(s, cursor, 0) && |s.delivered| < s.Numbered()
    ensures SendsIndex(s, |s.delivered|)
    ensures var s' := Apply(Apply(s, Poll), DeliverUnit);
            && Swept(s', cursor + 1, 0)
            && |s'.delivered| == |s.delivered| + 1 && s'.Numbered() == s.Numbered()
            && s'.submitted == s.submitted && !s'.rx.nackPending
  {
    PollConserved(s.tx, s.submitted, s.freed);
    BooksAfterPoll(s);
    WindowMakesFsnExact(|s.delivered|, |s.delivered|);
    BooksAfterDelivery(Apply(s, Poll));
  }

  lemma PollSendsAtCursor(s: System)
    requires s.tx.scheme.Basic?
    ensures NextUnit(s).index == NextIndex(s)
  {
  }

  /** A poll that is not at the expected index delivers nothing. */
  lemma OffTrackDeliversNothing(s: System)
    requires Books(s) && s.tx.scheme.Basic? && s.forward == []
    requires |s.delivered| < NextIndex(s)
    requires NextIndex(s) <= |s.delivered| + 127 || NextIndex(s) == |s.submitted|
    ensures var s' := Apply(Apply(s, Poll), DeliverUnit);
            && s'.delivered == s.delivered && s'.submitted == s.submitted && s'.tx == PollTx(s.tx).0
            && s'.freed == s.freed && s'.forward == [] && s'.backward == s.backward
            && s'.rx.lastReceived == s.rx.lastReceived && s'.rx.scheme == s.rx.scheme
            && (s.rx.nackPending ==> s'.rx == s.rx)
  {
    var k := NextIndex(s);
    PollConserved(s.tx, s.submitted, s.freed);
    assert Apply(s, Poll).forward == [NextUnit(s)];
    PollSendsAtCursor(s);
    if NextUnit(s).frame.body.Message? {
      assert NextUnit(s).frame.fsn == Fsn(k);
      WindowMakesFsnExact(k, |s.delivered|);
    }
  }

  /** A sweep that is ahead sends something else than the expected MSU. */
  lemma SweepAheadSkips(s: System, cursor: nat, lead: nat)
    requires Swept(s, cursor, lead) && lead > 0 && |s.delivered| < s.Numbered()
    ensures !SendsIndex(s, |s.delivered|)
  {
    PollSendsAtCursor(s);
  }

  lemma SweepRound(s: System, cursor: nat, acked: bool)
    requires Swept(s, cursor, 0) && |s.delivered| < s.Numbered()
    ensures SendsIndex(s, |s.delivered|)
    ensures var s' := Round(s, acked);
            && (if acked then Swept(s', cursor, cursor) else Swept(s', cursor + 1, 0))
            && |s'.delivered| == |s.delivered| + 1 && s'.Numbered() == s.Numbered()
            && s'.submitted == s.submitted
            && (acked ==> s'.freed == |s'.delivered|)
  {
    SweepSendsExpected(s, cursor);
    if acked {
      AckDuringSweep(Apply(Apply(s, Poll), DeliverUnit), cursor + 1, 0);
    }
  }

  lemma SweepRoundAccepts(s: System, cursor: nat, acked: bool)
    requires Swept(s, cursor, 0) && |s.delivered| < s.Numbered()
    ensures !Round(s, acked).rx.nackPending
  {
    SweepSendsExpected(s, cursor);
    if acked {
      AckDuringSweep(Apply(Apply(s, Poll), DeliverUnit), cursor + 1, 0);
    }
  }

  /** The cursor after a schedule in which every acknowledgement came in time. */
  function Trailing(schedule: seq<bool>): nat {
    if schedule == [] || schedule[|schedule| - 1] then 0 else Trailing(schedule[..|schedule| - 1]) + 1
  }

  ghost predicate InTime(schedule: seq<bool>) {
    forall i :: 0 < i < |schedule| && schedule[i] ==> schedule[i - 1]
  }

  lemma {:induction false} ResendsPrefix(s: System, schedule: seq<bool>, n: nat)
    requires Resends(s, schedule) && n <= |schedule|
    ensures Resends(s, schedule[..n])
  {
    if n < |schedule| {
      ResendsPrefix(s, schedule[..|schedule| - 1], n);
      assert schedule[..|schedule| - 1][..n] == schedule[..n];
    } else {
      assert schedule[..n] == schedule;
    }
  }

  /** A sweep on time after `schedule`, begun at s. */
  ghost predicate OnTime(s: System, s': System, schedule: seq<bool>) {
    && Swept(s', Trailing(schedule), 0)
    && |s'.delivered| == |s.delivered| + |schedule|
    && s'.Numbered() == s.Numbered() && s'.submitted == s.submitted
  }

  lemma OnTimeStep(s: System, before: System, schedule: seq<bool>)
    requires schedule != [] && InTime(schedule) && OnTime(s, before, schedule[..|schedule| - 1])
    requires |s.delivered| + |schedule| <= s.Numbered()
    ensures SendsIndex(before, |s.delivered| + |schedule| - 1)
    ensures OnTime(s, Round(before, schedule[|schedule| - 1]), schedule)
  {
    SweepRound(before, Trailing(schedule[..|schedule| - 1]), schedule[|schedule| - 1]);
  }

  lemma {:induction false} InTimeRounds(s: System, schedule: seq<bool>)
    requires Swept(s, 0, 0) && InTime(schedule)
    requires |s.delivered| + |schedule| <= s.Numbered()
    ensures Resends(s, schedule) && OnTime(s, Rounds(s, schedule), schedule)
  {
    if schedule != [] {
      InTimeRounds(s, schedule[..|schedule| - 1]);
      OnTimeStep(s, Rounds(s, schedule[..|schedule| - 1]), schedule);
    }
  }

  lemma {:induction false} RoundsSplit(s: System, x: seq<bool>, y: seq<bool>)
    ensures Rounds(s, x + y) == Rounds(Rounds(s, x), y)
  {
    if y == [] {
      assert x + y == x;
    } else {
      RoundsSplit(s, x, y[..|y| - 1]);
      assert (x + y)[..|x + y| - 1] == x + y[..|y| - 1];
    }
  }

  /** A round delivers at most the one unit it sends. */
  lemma RoundDelivers(s: System, acked: bool)
    requires s.forward == []
    ensures var s' := Round(s, acked);
            && s'.forward == []
            && s'.delivered == Apply(Apply(s, Poll), DeliverUnit).delivered
            && |s'.delivered| <= |s.delivered| + 1
  {
  }

  lemma {:induction false} RoundsDeliver(s: System, schedule: seq<bool>)
    requires s.forward == []
    ensures Rounds(s, schedule).forward == []
    ensures |Rounds(s, schedule).delivered| <= |s.delivered| + |schedule|
  {
    if schedule != [] {
      RoundsDeliver(s, schedule[..|schedule| - 1]);
      RoundDelivers(Rounds(s, schedule[..|schedule| - 1]), schedule[|schedule| - 1]);
    }
  }

  /** A round that delivers nothing is not made up for. */
  lemma SkipCosts(s: System, schedule: seq<bool>, j: nat)
    requires s.forward == [] && j < |schedule|
    requires var skipping := Rounds(s, schedule[..j]);
             Apply(Apply(skipping, Poll), DeliverUnit).delivered == skipping.delivered
    ensures |Rounds(s, schedule).delivered| < |s.delivered| + |schedule|
  {
    var front, rest := schedule[..j + 1], schedule[j + 1..];
    assert front[..j] == schedule[..j] && front + rest == schedule;
    RoundsSplit(s, front, rest);
    RoundsDeliver(s, schedule[..j]);
    RoundDelivers(Rounds(s, schedule[..j]), schedule[j]);
    RoundsDeliver(Rounds(s, front), rest);
  }

  /** After a late acknowledgement the next round sends something else and delivers nothing. */
  lemma LateAckStraysNext(s: System, schedule: seq<bool>, i: nat)
    requires Swept(s, 0, 0) && |s.delivered| + |schedule| <= s.Numbered()
    requires 0 < i < |schedule| - 1 && schedule[i] && !schedule[i - 1]
    requires InTime(schedule[..i])
    ensures var skipping := Rounds(s, schedule[..i + 1]);
            && !SendsIndex(skipping, |s.delivered| + i + 1)
            && Apply(Apply(skipping, Poll), DeliverUnit).delivered == skipping.delivered
  {
    var cursor, before := Trailing(schedule[..i]), Rounds(s, schedule[..i]);
    InTimeRounds(s, schedule[..i]);
    assert schedule[..i][i - 1] == schedule[i - 1];
    assert schedule[..i + 1][..i] == schedule[..i];
    SweepRound(before, cursor, true);
    SweepAheadSkips(Round(before, true), cursor, cursor);
    OffTrackDeliversNothing(Round(before, true));
  }

  lemma NotResending(s: System, schedule: seq<bool>, j: nat)
    requires j < |schedule| && !SendsIndex(Rounds(s, schedule[..j]), |s.delivered| + j)
    ensures !Resends(s, schedule)
  {
    assert schedule[..j + 1][..j] == schedule[..j];
    if Resends(s, schedule) {
      ResendsPrefix(s, schedule, j + 1);
    }
  }

  /** The first late acknowledgement before the last round makes the next round skip. */
  lemma LateAckSkips(s: System, schedule: seq<bool>, i: nat)
    requires Swept(s, 0, 0) && |s.delivered| + |schedule| <= s.Numbered()
    requires 0 < i < |schedule| - 1 && schedule[i] && !schedule[i - 1]
    requires InTime(schedule[..i])
    ensures !Resends(s, schedule)
    ensures |Rounds(s, schedule).delivered| < |s.delivered| + |schedule|
  {
    LateAckStraysNext(s, schedule, i);
    NotResending(s, schedule, i + 1);
    SkipCosts(s, schedule, i + 1);
  }

  lemma {:induction false} FirstLate(schedule: seq<bool>, bound: nat) returns (i: nat)
    requires bound <= |schedule| && !InTime(schedule[..bound])
    ensures 0 < i < bound && schedule[i] && !schedule[i - 1] && InTime(schedule[..i])
  {
    if bound > 0 && !InTime(schedule[..bound - 1]) {
      i := FirstLate(schedule, bound - 1);
    } else {
      i := bound - 1;
    }
  }

  /** Everything numbered is delivered and the sweep is over. */
  ghost predicate CaughtUp(s: System) {
    && Books(s)
    && s.tx.scheme.Basic? && s.tx.fib == s.rx.bib
    && s.forward == [] && s.backward == []
    && !Sweeping(s.tx) && |s.delivered| == s.Numbered()
  }

  lemma TimelySweep(s: System, schedule: seq<bool>)
    requires Swept(s, 0, 0) && |schedule| == s.Numbered() - |s.delivered| && NeverLate(schedule)
    ensures Resends(s, schedule)
    ensures CaughtUp(Rounds(s, schedule)) && Rounds(s, schedule).submitted == s.submitted
    ensures |Rounds(s, schedule).delivered| == s.Numbered()
  {
    if schedule != [] {
      var before := schedule[..|schedule| - 1];
      InTimeRounds(s, before);
      SweepRound(Rounds(s, before), Trailing(before), schedule[|schedule| - 1]);
    }
  }

  /**
   * From the start of a sweep with r MSUs outstanding, r loss-free rounds re-send exactly
   * those MSUs in order, and deliver them all, iff no acknowledgement is late.
   */
  lemma SweepIsExact(s: System, schedule: seq<bool>)
    requires Swept(s, 0, 0) && |schedule| == s.Numbered() - |s.delivered|
    ensures Resends(s, schedule) <==> NeverLate(schedule)
    ensures NeverLate(schedule) ==>
              && CaughtUp(Rounds(s, schedule)) && Rounds(s, schedule).submitted == s.submitted
              && |Rounds(s, schedule).delivered| == s.Numbered()
    ensures !NeverLate(schedule) ==> |Rounds(s, schedule).delivered| < s.Numbered()
  {
    if NeverLate(schedule) {
      TimelySweep(s, schedule);
    } else {
      var i := FirstLate(schedule, |schedule| - 1);
      LateAckSkips(s, schedule, i);
    }
  }

  lemma CaughtUpAck(s: System)
    requires CaughtUp(s) && s.tx.basicCursor == None
    ensures var s' := Apply(Apply(s, ReturnAck), DeliverAck);
            && CaughtUp(s') && s'.submitted == s.submitted
            && s'.delivered == s.delivered && s'.tx.pending == s.tx.pending
  {
    BooksKept(s, ReturnAck);
    BooksAfterAck(Apply(s, ReturnAck));
  }

  /** After the sweep each round sends and delivers the oldest pending MSU, acknowledged or not. */
  lemma CaughtUpRound(s: System, acked: bool)
    requires CaughtUp(s) && s.tx.pending != []
    ensures var s' := Round(s, acked);
            && CaughtUp(s') && s'.submitted == s.submitted
            && |s'.delivered| == |s.delivered| + 1 && |s'.tx.pending| == |s.tx.pending| - 1
  {
    var s1 := Apply(s, Poll);
    PollConserved(s.tx, s.submitted, s.freed);
    BooksAfterPoll(s);
    WindowMakesFsnExact(|s.delivered|, |s.delivered|);
    BooksAfterDelivery(s1);
    if acked {
      CaughtUpAck(Apply(s1, DeliverUnit));
    }
  }

  lemma {:induction false} CaughtUpRounds(s: System, schedule: seq<bool>)
    requires CaughtUp(s) && |schedule| <= |s.tx.pending|
    ensures var s' := Rounds(s, schedule);
            && CaughtUp(s') && s'.submitted == s.submitted
            && |s'.delivered| == |s.delivered| + |schedule|
            && |s'.tx.pending| == |s.tx.pending| - |schedule|
  {
    if schedule != [] {
      CaughtUpRounds(s, schedule[..|schedule| - 1]);
      CaughtUpRound(Rounds(s, schedule[..|schedule| - 1]), schedule[|schedule| - 1]);
    }
  }

  /** The rounds of the sweep and those after it. */
  lemma SweepThenRest(s: System, sweep: seq<bool>, rest: seq<bool>)
    requires Swept(s, 0, 0) && |sweep| == ToSweep(s) && |sweep| + |rest| <= ToDeliver(s)
    ensures var s' := Rounds(Rounds(s, sweep), rest);
            if NeverLate(sweep) then s'.delivered == s.submitted[..|s.delivered| + |sweep| + |rest|]
            else |s'.delivered| < |s.delivered| + |sweep| + |rest|
  {
    SweepIsExact(s, sweep);
    if NeverLate(sweep) {
      CaughtUpRounds(Rounds(s, sweep), rest);
    } else {
      RoundsDeliver(s, sweep);
      RoundsDeliver(Rounds(s, sweep), rest);
    }
  }

  lemma TimelyPart(schedule: seq<bool>, r: nat)
    requires r <= |schedule|
    ensures NeverLate(schedule[..r]) <==> Timely(schedule, r)
  {
    assert forall i :: 0 <= i < r ==> schedule[..r][i] == schedule[i];
  }

  /** Only the rounds of the sweep decide whether every round delivers. */
  lemma SweepThenPending(s: System, schedule: seq<bool>)
    requires Swept(s, 0, 0)
    requires ToSweep(s) <= |schedule| <= ToDeliver(s)
    ensures var late := !Timely(schedule, s.Numbered() - |s.delivered|);
            var s' := Rounds(s, schedule);
            && (!late ==> s'.delivered == s.submitted[..|s.delivered| + |schedule|])
            && (late ==> |s'.delivered| < |s.delivered| + |schedule|)
  {
    var r := ToSweep(s);
    assert schedule[..r] + schedule[r..] == schedule;
    RoundsSplit(s, schedule[..r], schedule[r..]);
    TimelyPart(schedule, r);
    SweepThenRest(s, schedule[..r], schedule[r..]);
  }

  /**
   * One acknowledgement releases all that was accepted and starts a sweep, from which each
   * of the scheduled rounds delivers an MSU iff no acknowledgement in the sweep is late.
   */
  ghost predicate Recovers(s: System, schedule: seq<bool>) {
    var sweep := Apply(Apply(s, ReturnAck), DeliverAck);
    var s' := Rounds(sweep, schedule);
    && sweep.freed == |sweep.delivered| == |s.delivered|
    && (if Timely(schedule, ToSweep(s))
        then |s.delivered| + |schedule| <= |s.submitted|
             && s'.delivered == s.submitted[..|s.delivered| + |schedule|]
        else |s'.delivered| < |s.delivered| + |schedule|)
  }

  lemma StalledRecovers(s: System, schedule: seq<bool>)
    requires Stalled(s) && ToSweep(s) <= |schedule| <= ToDeliver(s)
    ensures Recovers(s, schedule)
  {
    NackStartsSweep(s);
    SweepThenPending(Apply(Apply(s, ReturnAck), DeliverAck), schedule);
  }

  /**
   * Every stalled state with at most 64 outstanding that a Basic run within its window can
   * reach recovers so, over any number of rounds from those of the sweep to one for every MSU
   * not delivered.
   */
  lemma BasicRecovery(actions: seq<Action>, schedule: seq<bool>)
    requires Windowed(NewSystem(Basic), actions, BASIC_WINDOW)
    requires var s := Run(NewSystem(Basic), actions);
             && s.forward == [] && s.backward == [] && s.rx.bib != s.tx.fib
             && |s.tx.unacked| <= HALF_WINDOW
             && ToSweep(s) <= |schedule| <= ToDeliver(s)
    ensures Recovers(Run(NewSystem(Basic), actions), schedule)
  {
    HandshakeInvariant(actions);
    StalledRecovers(Run(NewSystem(Basic), actions), schedule);
  }
}
