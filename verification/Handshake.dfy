/**
 * The Basic method's negative acknowledgement as a handshake: an invariant of every run that
 * never has more than 128 MSUs outstanding, and of the freshness of what is in flight in
 * runs with at most 66.
 */
module Handshake {
  import opened Basics
  import opened Sequence
  import opened Retransmission
  import opened TransmitBuffer
  import opened Session

  const BASIC_WINDOW := 128
  const FRESH_WINDOW := 66
  const HALF_WINDOW := 64

  predicate Even(n: nat) {
    n % 2 == 0
  }

  /** The absolute index of the next MSU the transmitter will send. */
  function NextIndex(s: System): nat {
    if Sweeping(s.tx) then s.freed + s.tx.basicCursor.value else s.Numbered()
  }

  /** The unit the next poll puts on the forward channel. */
  function NextUnit(s: System): Unit {
    var (tx', frame) := PollTx(s.tx);
    Unit(frame, s.freed + SentPosition(s.tx), s.freed + |tx'.unacked|, s.seen)
  }

  /** A toggle the transmitter has not seen: everything in flight is beyond the gap. */
  ghost predicate Unseen(s: System) {
    s.toggles == s.seen + 1
  }

  /** A stale MSU is in flight only while a request is pending, in the sweep that answers it. */
  ghost predicate SweepOk(s: System, u: Unit) {
    && u.sweep <= s.seen
    && (u.frame.body.Message? ==>
          && u.numbered <= |s.delivered| + BASIC_WINDOW
          && u.numbered <= u.index + BASIC_WINDOW
          && (u.index < |s.delivered| ==> s.rx.nackPending && |s.delivered| < u.numbered)
          && (u.sweep < s.seen ==> |s.delivered| < u.index && s.rx.nackPending)
          && (u.sweep == s.seen ==> u.index < NextIndex(s))
          && (Unseen(s) ==> |s.delivered| < u.index && u.sweep == s.seen))
  }

  ghost predicate EchoOk(s: System, a: Ack) {
    && s.seen <= a.toggles <= s.toggles
    && a.bib == Even(a.toggles)
    && (a.toggles == s.seen + 1 ==> a.accepted == |s.delivered|)
  }

  ghost predicate Ascending(u: Unit, v: Unit) {
    && u.sweep <= v.sweep
    && (u.frame.body.Message? && v.frame.body.Message? && u.sweep == v.sweep ==> u.index < v.index)
  }

  ghost predicate Shaken(s: System) {
    && s.tx.scheme.Basic?
    && |s.tx.unacked| <= BASIC_WINDOW
    && s.seen <= s.toggles <= s.seen + 1
    && s.rx.bib == Even(s.toggles) && s.tx.fib == Even(s.seen)
    && (if s.rx.nackPending then |s.delivered| < s.Numbered() else |s.delivered| <= NextIndex(s))
    && (Unseen(s) ==> s.rx.nackPending && |s.delivered| + 1 < NextIndex(s))
    && (forall i :: 0 <= i < |s.forward| ==> SweepOk(s, s.forward[i]))
    && (forall i, j :: 0 <= i < j < |s.forward| ==> Ascending(s.forward[i], s.forward[j]))
    && (forall i :: 0 <= i < |s.backward| ==> EchoOk(s, s.backward[i]))
    && (forall i, j :: 0 <= i < j < |s.backward| ==> s.backward[i].toggles <= s.backward[j].toggles)
  }

  /** The sequence check cannot mistake a unit about to arrive for another. */
  lemma ShakenMakesHeadExact(s: System)
    requires Books(s) && Shaken(s)
    ensures HeadExact(s)
  {
    if s.forward != [] && s.forward[0].frame.body.Message? {
      assert SweepOk(s, s.forward[0]) && UnitOk(s, s.forward[0]);
      WindowMakesFsnExact(s.forward[0].index, |s.delivered|);
    }
  }

  /** An acknowledgement no more than 64 ahead releases exactly what was accepted. */
  lemma AckIsExact(freed: nat, accepted: nat, outstanding: nat)
    requires freed <= accepted <= freed + outstanding && accepted <= freed + HALF_WINDOW
    ensures AckCount(outstanding, freed, FsnBefore(accepted)) == accepted - freed
  {
    ForwardOfIndices(freed, accepted);
  }

  lemma ShakenAfterSend(s: System, u: Unit)
    requires Shaken(s) && SweepOk(s, u) && u.sweep == s.seen
    requires forall i :: 0 <= i < |s.forward| ==> Ascending(s.forward[i], u)
    ensures Shaken(s.(forward := s.forward + [u]))
  {
  }

  /** The transmitter advances within a sweep. */
  lemma ShakenAfterAdvance(s: System, tx: TxState, freed: nat)
    requires Shaken(s)
    requires tx.scheme.Basic? && tx.fib == s.tx.fib && |tx.unacked| <= BASIC_WINDOW
    requires NextIndex(s) <= NextIndex(s.(tx := tx, freed := freed))
    requires s.Numbered() <= freed + |tx.unacked|
    ensures Shaken(s.(tx := tx, freed := freed))
  {
    var s' := s.(tx := tx, freed := freed);
    assert forall i :: 0 <= i < |s.forward| ==> SweepOk(s, s.forward[i]) ==> SweepOk(s', s.forward[i]);
    assert forall i :: 0 <= i < |s.backward| ==> EchoOk(s, s.backward[i]) ==> EchoOk(s', s.backward[i]);
  }

  /** A poll sends the next index and moves past it. */
  lemma PollSendsNext(s: System)
    requires s.tx.scheme.Basic?
    ensures var (tx', frame) := PollTx(s.tx);
            && (frame.body.Message? ==>
                  && s.freed + SentPosition(s.tx) == NextIndex(s)
                  && NextIndex(s.(tx := tx')) == NextIndex(s) + 1)
            && (frame.body.Fill? ==> NextIndex(s.(tx := tx')) == NextIndex(s))
  {
  }

  /** The transmitter sends a unit and advances past it. */
  lemma ShakenAfterSending(s: System, tx: TxState, u: Unit)
    requires Shaken(s)
    requires tx.scheme.Basic? && tx.fib == s.tx.fib && |s.tx.unacked| <= |tx.unacked| <= BASIC_WINDOW
    requires s.freed <= |s.delivered|
    requires u.sweep == s.seen && u.numbered == s.freed + |tx.unacked|
    requires if u.frame.body.Message?
             then s.freed <= u.index == NextIndex(s) < NextIndex(s.(tx := tx))
             else NextIndex(s.(tx := tx)) == NextIndex(s)
    ensures Shaken(s.(tx := tx, forward := s.forward + [u]))
  {
    ShakenAfterAdvance(s, tx, s.freed);
    forall i | 0 <= i < |s.forward| ensures Ascending(s.forward[i], u) {
      assert SweepOk(s, s.forward[i]);
    }
    ShakenAfterSend(s.(tx := tx), u);
  }

  lemma PollKeepsBits(s: System)
    requires Books(s)
    ensures var tx' := PollTx(s.tx).0;
            tx'.scheme == s.tx.scheme && tx'.fib == s.tx.fib && |s.tx.unacked| <= |tx'.unacked|
    ensures Polled(s) == s.(tx := PollTx(s.tx).0, forward := s.forward + [NextUnit(s)])
  {
    PollConserved(s.tx, s.submitted, s.freed);
  }

  lemma ShakenAfterPoll(s: System)
    requires Books(s) && Shaken(s) && |PollTx(s.tx).0.unacked| <= BASIC_WINDOW
    ensures Shaken(Polled(s))
  {
    PollSendsNext(s);
    PollKeepsBits(s);
    ShakenAfterSending(s, PollTx(s.tx).0, NextUnit(s));
  }

  lemma ShakenAfterPop(s: System)
    requires Shaken(s) && s.forward != []
    ensures Shaken(s.(forward := s.forward[1..]))
  {
    var rest := s.forward[1..];
    assert forall i :: 0 <= i < |rest| ==> rest[i] == s.forward[i + 1];
  }

  /** The expected MSU is accepted: only the current sweep is left in flight, beyond it. */
  lemma ShakenAfterAccept(s: System, m: Msu, fsn: octet)
    requires Shaken(s) && s.forward != []
    requires s.forward[0].frame.body.Message? && s.forward[0].index == |s.delivered|
    ensures Shaken(s.(forward := s.forward[1..],
                      rx := s.rx.(lastReceived := fsn, nackPending := false),
                      delivered := s.delivered + [m]))
  {
    var u := s.forward[0];
    var s' := s.(forward := s.forward[1..],
                 rx := s.rx.(lastReceived := fsn, nackPending := false),
                 delivered := s.delivered + [m]);
    assert SweepOk(s, u);
    ShakenAfterPop(s);
    forall i | 0 <= i < |s'.forward| ensures SweepOk(s', s'.forward[i]) {
      assert s'.forward[i] == s.forward[i + 1];
      assert SweepOk(s, s.forward[i + 1]) && Ascending(u, s.forward[i + 1]);
    }
    forall i | 0 <= i < |s'.backward| ensures EchoOk(s', s'.backward[i]) {
      assert EchoOk(s, s.backward[i]);
    }
  }

  /** A gap is noticed: what remains in flight is the rest of the same sweep. */
  lemma ShakenAfterToggle(s: System)
    requires Shaken(s) && s.forward != [] && !s.rx.nackPending
    requires s.forward[0].frame.body.Message? && s.forward[0].index != |s.delivered|
    requires s.forward[0].index < s.Numbered()
    ensures Shaken(s.(forward := s.forward[1..],
                      rx := s.rx.(bib := !s.rx.bib, nackPending := true),
                      toggles := s.toggles + 1))
  {
    var u := s.forward[0];
    var s' := s.(forward := s.forward[1..],
                 rx := s.rx.(bib := !s.rx.bib, nackPending := true),
                 toggles := s.toggles + 1);
    assert SweepOk(s, u);
    ShakenAfterPop(s);
    forall i | 0 <= i < |s'.forward| ensures SweepOk(s', s'.forward[i]) {
      assert s'.forward[i] == s.forward[i + 1];
      assert SweepOk(s, s.forward[i + 1]) && Ascending(u, s.forward[i + 1]);
    }
    forall i | 0 <= i < |s'.backward| ensures EchoOk(s', s'.backward[i]) {
      assert EchoOk(s, s.backward[i]);
    }
  }

  lemma ShakenAfterDelivery(s: System)
    requires Books(s) && Shaken(s) && s.forward != []
    ensures Shaken(Apply(s, DeliverUnit))
  {
    var u := s.forward[0];
    ShakenAfterPop(s);
    if u.frame.body.Message? {
      ShakenMakesHeadExact(s);
      var (rx', outcome) := ReceiveMsu(s.rx, u.frame.fsn, u.frame.body.msu);
      if outcome.Accepted? {
        ShakenAfterAccept(s, u.frame.body.msu, u.frame.fsn);
      } else if rx'.bib != s.rx.bib {
        ShakenAfterToggle(s);
      }
    }
  }

  /** A toggle reaches the transmitter, which starts a sweep of what it still buffers. */
  lemma ShakenAfterSweepStart(s: System, tx: TxState, freed: nat)
    requires Shaken(s) && s.backward != [] && s.backward[0].toggles == s.seen + 1
    requires tx.scheme.Basic? && tx.fib == Even(s.seen + 1)
    requires freed <= |s.delivered| && freed + |tx.unacked| == s.Numbered()
    requires 0 < |tx.unacked| <= BASIC_WINDOW && tx.basicCursor == Some(0)
    ensures Shaken(s.(tx := tx, freed := freed, seen := s.seen + 1, backward := s.backward[1..]))
  {
    var s' := s.(tx := tx, freed := freed, seen := s.seen + 1, backward := s.backward[1..]);
    assert EchoOk(s, s.backward[0]);
    forall i | 0 <= i < |s'.forward| ensures SweepOk(s', s'.forward[i]) {
      assert SweepOk(s, s.forward[i]);
    }
    assert forall i :: 0 <= i < |s'.backward| ==> s'.backward[i] == s.backward[i + 1];
    forall i | 0 <= i < |s'.backward| ensures EchoOk(s', s'.backward[i]) {
      assert EchoOk(s, s.backward[i + 1]) && s.backward[0].toggles <= s.backward[i + 1].toggles;
    }
  }

  lemma ShakenAfterDrop(s: System)
    requires Shaken(s) && s.backward != []
    ensures Shaken(s.(backward := s.backward[1..]))
  {
    var rest := s.backward[1..];
    assert forall i :: 0 <= i < |rest| ==> rest[i] == s.backward[i + 1];
    assert forall i :: 0 <= i < |rest| ==> EchoOk(s, s.backward[i + 1]) ==> EchoOk(s.(backward := rest), rest[i]);
  }

  /** What an acknowledgement does to the next index. */
  lemma AckAdvances(s: System, bsn: octet, bib: bool)
    requires Conserved(s.tx, s.submitted, s.freed) && s.tx.scheme.Basic?
    ensures var tx' := AckTx(s.tx, bsn, bib);
            var freed' := s.freed + AckCount(|s.tx.unacked|, s.freed, bsn);
            && tx'.scheme.Basic? && tx'.fib == bib
            && tx'.unacked == s.tx.unacked[freed' - s.freed..]
            && (bib == s.tx.fib ==>
                  && NextIndex(s) <= NextIndex(s.(tx := tx', freed := freed'))
                  && (Sweeping(tx') ==> Sweeping(s.tx)))
            && (bib != s.tx.fib && tx'.unacked != [] ==> tx'.basicCursor == Some(0))
  {
    AckConserved(s.tx, s.submitted, s.freed, bsn, bib);
  }

  /** What the oldest acknowledgement in flight does when it arrives. */
  ghost predicate AckResult(s: System, s': System)
    requires s.backward != []
  {
    var a := s.backward[0];
    && s' == s.(backward := s.backward[1..], tx := s'.tx, freed := s'.freed, seen := s'.seen)
    && s'.tx.scheme.Basic? && s'.tx.fib == a.bib
    && s'.freed <= |s.delivered| && s'.Numbered() == s.Numbered()
    && |s'.tx.unacked| <= |s.tx.unacked|
    && (if a.bib == s.tx.fib
        then s'.seen == s.seen && NextIndex(s) <= NextIndex(s') && (Sweeping(s'.tx) ==> Sweeping(s.tx))
        else s'.seen == s.seen + 1 && (s'.tx.unacked != [] ==> s'.tx.basicCursor == Some(0)))
  }

  lemma AckEffect(s: System)
    requires Books(s) && s.tx.scheme.Basic? && s.backward != []
    ensures AckResult(s, Apply(s, DeliverAck))
  {
    var a, rest := s.backward[0], s.(backward := s.backward[1..]);
    assert AckOk(s, a);
    BooksAfterAck(s);
    AckAdvances(rest, a.bsn, a.bib);
  }

  lemma ShakenAfterAckResult(s: System, s': System)
    requires Shaken(s) && s.backward != [] && AckResult(s, s')
    ensures Shaken(s')
  {
    var a, rest := s.backward[0], s.(backward := s.backward[1..]);
    assert EchoOk(s, a);
    if a.toggles == s.seen {
      ShakenAfterDrop(s);
      ShakenAfterAdvance(rest, s'.tx, s'.freed);
      assert s' == rest.(tx := s'.tx, freed := s'.freed);
    } else {
      ShakenAfterSweepStart(s, s'.tx, s'.freed);
    }
  }

  lemma ShakenAfterAck(s: System)
    requires Books(s) && Shaken(s) && s.backward != []
    ensures Shaken(Apply(s, DeliverAck))
  {
    AckEffect(s);
    ShakenAfterAckResult(s, Apply(s, DeliverAck));
  }

  lemma ShakenAfterEcho(s: System)
    requires Shaken(s)
    ensures Shaken(Apply(s, ReturnAck))
  {
    var s' := Apply(s, ReturnAck);
    assert forall i :: 0 <= i < |s.backward| ==> EchoOk(s, s.backward[i]) ==> EchoOk(s', s.backward[i]);
  }

  lemma ShakenKept(s: System, a: Action)
    requires Books(s) && Shaken(s)
    requires |Apply(s, a).tx.unacked| <= BASIC_WINDOW
    ensures Shaken(Apply(s, a))
  {
    match a
    case Submit(m) => ShakenAfterAdvance(s, SubmitMsu(s.tx, m), s.freed);
    case Poll => ShakenAfterPoll(s);
    case SendFill(fsn, fib) => ShakenAfterSend(s, Unit(TxFrame(fsn, fib, Fill), 0, s.Numbered(), s.seen));
    case DeliverUnit => if s.forward != [] { ShakenAfterDelivery(s); }
    case DeliverAck => if s.backward != [] { ShakenAfterAck(s); }
    case LoseUnit => if s.forward != [] { ShakenAfterPop(s); }
    case ReturnAck => ShakenAfterEcho(s);
    case LoseAck => if s.backward != [] { ShakenAfterDrop(s); }
  }

  lemma ShakenNew()
    ensures Shaken(NewSystem(Basic))
  {
  }

  /** Every Basic run with at most 128 outstanding keeps its books and shakes hands. */
  lemma {:induction false} HandshakeInvariant(actions: seq<Action>)
    requires Windowed(NewSystem(Basic), actions, BASIC_WINDOW)
    ensures var s := Run(NewSystem(Basic), actions); Books(s) && Shaken(s)
  {
    if actions == [] {
      BooksNew(Basic);
      ShakenNew();
    } else {
      var before := Run(NewSystem(Basic), actions[..|actions| - 1]);
      HandshakeInvariant(actions[..|actions| - 1]);
      ShakenMakesHeadExact(before);
      BooksKept(before, actions[|actions| - 1]);
      ShakenKept(before, actions[|actions| - 1]);
    }
  }

  /**
   * In every Basic run with at most 128 outstanding the receiver has made at most one toggle
   * more than the sweeps it has provoked, and one more iff the indicator bits differ.
   */
  lemma BasicHandshake(actions: seq<Action>)
    requires Windowed(NewSystem(Basic), actions, BASIC_WINDOW)
    ensures var s := Run(NewSystem(Basic), actions);
            && s.seen <= s.toggles <= s.seen + 1
            && (s.toggles == s.seen + 1 <==> s.rx.bib != s.tx.fib)
            && (s.rx.bib != s.tx.fib ==> s.rx.nackPending)
            && (s.rx.nackPending ==> |s.delivered| < s.Numbered())
  {
    HandshakeInvariant(actions);
  }

  ghost predicate SweepsCounted(s: System, s': System) {
    && s.seen <= s'.seen <= s.seen + 1
    && (s'.seen == s.seen + 1 ==> Sweeping(s'.tx) && s'.tx.basicCursor == Some(0))
    && (!Sweeping(s.tx) && Sweeping(s'.tx) ==> s'.seen == s.seen + 1)
  }

  lemma SeenAfterAck(s: System, s': System)
    requires Shaken(s) && s.backward != [] && AckResult(s, s')
    ensures SweepsCounted(s, s')
  {
    assert EchoOk(s, s.backward[0]);
  }

  lemma PollStartsNoSweep(tx: TxState)
    requires tx.scheme.Basic?
    ensures Sweeping(PollTx(tx).0) ==> Sweeping(tx)
  {
  }

  lemma SeenAfter(s: System, a: Action)
    requires Books(s) && Shaken(s)
    ensures SweepsCounted(s, Apply(s, a))
  {
    if a.DeliverAck? && s.backward != [] {
      AckEffect(s);
      SeenAfterAck(s, Apply(s, a));
    } else if a.Poll? {
      PollStartsNoSweep(s.tx);
    }
  }

  /**
   * In such a run the count of toggles seen goes up exactly when a sweep of a buffer that is
   * not empty starts at its head, and a sweep never starts otherwise.
   */
  lemma SeenCountsSweeps(actions: seq<Action>, a: Action)
    requires Windowed(NewSystem(Basic), actions, BASIC_WINDOW)
    ensures var s := Run(NewSystem(Basic), actions); SweepsCounted(s, Apply(s, a))
  {
    HandshakeInvariant(actions);
    SeenAfter(Run(NewSystem(Basic), actions), a);
  }

  // ---- Nothing stale in flight ----

  /** Nothing in flight, nor about to be sent, has been accepted already. */
  ghost predicate Fresh(s: System) {
    && |s.delivered| <= NextIndex(s)
    && (forall i :: 0 <= i < |s.forward| && s.forward[i].frame.body.Message? ==>
          |s.delivered| <= s.forward[i].index)
  }

  /** A sweep of at most 66 starts at the MSU the receiver lacks. */
  lemma FreshAfterAck(s: System)
    requires Books(s) && Shaken(s) && Fresh(s) && s.backward != []
    requires |s.tx.unacked| <= FRESH_WINDOW
    ensures Fresh(Apply(s, DeliverAck))
  {
    var a := s.backward[0];
    assert AckOk(s, a) && EchoOk(s, a);
    AckEffect(s);
    if a.toggles == s.seen + 1 {
      AckIsExact(s.freed, a.accepted, |s.tx.unacked|);
    }
  }

  lemma FreshAfterDelivery(s: System)
    requires Books(s) && Shaken(s) && Fresh(s) && s.forward != []
    ensures Fresh(Apply(s, DeliverUnit))
  {
    var u, s' := s.forward[0], Apply(s, DeliverUnit);
    ShakenMakesHeadExact(s);
    assert SweepOk(s, u);
    forall i | 0 <= i < |s'.forward| && s'.forward[i].frame.body.Message?
      ensures |s'.delivered| <= s'.forward[i].index
    {
      assert s'.forward[i] == s.forward[i + 1];
      assert SweepOk(s, s.forward[i + 1]) && Ascending(u, s.forward[i + 1]);
    }
  }

  lemma FreshKept(s: System, a: Action)
    requires Books(s) && Shaken(s) && Fresh(s) && |s.tx.unacked| <= FRESH_WINDOW
    ensures Fresh(Apply(s, a))
  {
    match a
    case Poll => PollSendsNext(s);
    case DeliverUnit => if s.forward != [] { FreshAfterDelivery(s); }
    case DeliverAck => if s.backward != [] { FreshAfterAck(s); }
    case Submit(m) =>
    case SendFill(fsn, fib) =>
    case LoseUnit =>
    case ReturnAck =>
    case LoseAck =>
  }

  lemma {:induction false} FreshRun(actions: seq<Action>)
    requires Windowed(NewSystem(Basic), actions, FRESH_WINDOW)
    ensures Fresh(Run(NewSystem(Basic), actions))
  {
    if actions != [] {
      FreshRun(actions[..|actions| - 1]);
      WindowedMonotone(NewSystem(Basic), actions[..|actions| - 1], FRESH_WINDOW, BASIC_WINDOW);
      HandshakeInvariant(actions[..|actions| - 1]);
      FreshKept(Run(NewSystem(Basic), actions[..|actions| - 1]), actions[|actions| - 1]);
    }
  }
}
