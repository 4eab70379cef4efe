/**
 * The Basic method over a forward channel that loses nothing, with any number of MSUs
 * outstanding and acknowledgements lost at will.
 */
module Lossless {
  import opened Basics
  import opened Sequence
  import opened Retransmission
  import opened TransmitBuffer
  import opened Session

  /** The MSUs in flight are exactly those with indices from `from` to `to`, in order. */
  predicate Lined(units: seq<Unit>, from: nat, to: nat) {
    if units == [] then from == to
    else if units[0].frame.body.Message? then units[0].index == from && Lined(units[1..], from + 1, to)
    else Lined(units[1..], from, to)
  }

  lemma {:induction false} LinedAppend(units: seq<Unit>, from: nat, to: nat, u: Unit)
    requires Lined(units, from, to) && (u.frame.body.Message? ==> u.index == to)
    ensures Lined(units + [u], from, if u.frame.body.Message? then to + 1 else to)
  {
    if units != [] {
      assert (units + [u])[1..] == units[1..] + [u];
      LinedAppend(units[1..], if units[0].frame.body.Message? then from + 1 else from, to, u);
    }
  }

  ghost predicate Undisturbed(s: System) {
    && s.tx.scheme.Basic?
    && s.tx.fib && s.rx.bib && !s.rx.nackPending && s.tx.basicCursor == None && s.toggles == 0
    && (forall i :: 0 <= i < |s.backward| ==> s.backward[i].bib)
    && Lined(s.forward, |s.delivered|, s.Numbered())
  }

  lemma UndisturbedMakesHeadExact(s: System)
    requires Books(s) && Undisturbed(s)
    ensures HeadExact(s)
    ensures s.forward != [] && s.forward[0].frame.body.Message? ==> s.forward[0].index == |s.delivered|
  {
    if s.forward != [] && s.forward[0].frame.body.Message? {
      assert UnitOk(s, s.forward[0]);
      WindowMakesFsnExact(s.forward[0].index, |s.delivered|);
    }
  }

  lemma UndisturbedAfterPoll(s: System)
    requires Books(s) && Undisturbed(s)
    ensures Undisturbed(Polled(s))
  {
    var (tx', frame) := PollTx(s.tx);
    PollConserved(s.tx, s.submitted, s.freed);
    LinedAppend(s.forward, |s.delivered|, s.Numbered(),
                Unit(frame, s.freed + SentPosition(s.tx), s.freed + |tx'.unacked|, s.seen));
  }

  lemma UndisturbedAfterDelivery(s: System)
    requires Books(s) && Undisturbed(s) && s.forward != []
    ensures Undisturbed(Apply(s, DeliverUnit))
  {
    UndisturbedMakesHeadExact(s);
  }

  lemma UndisturbedAfterAck(s: System)
    requires Books(s) && Undisturbed(s) && s.backward != []
    ensures Undisturbed(Apply(s, DeliverAck))
  {
    BooksAfterAck(s);
  }

  lemma UndisturbedKept(s: System, a: Action)
    requires Books(s) && Undisturbed(s) && !a.LoseUnit?
    ensures Undisturbed(Apply(s, a))
  {
    match a
    case Submit(m) =>
    case Poll => UndisturbedAfterPoll(s);
    case SendFill(fsn, fib) =>
      LinedAppend(s.forward, |s.delivered|, s.Numbered(),
                  Unit(TxFrame(fsn, fib, Fill), 0, s.Numbered(), s.seen));
    case DeliverUnit => if s.forward != [] { UndisturbedAfterDelivery(s); }
    case ReturnAck =>
    case LoseAck =>
    case DeliverAck => if s.backward != [] { UndisturbedAfterAck(s); }
  }

  lemma {:induction false} UndisturbedRun(actions: seq<Action>)
    requires LoseUnit !in actions
    ensures Books(Run(NewSystem(Basic), actions)) && Undisturbed(Run(NewSystem(Basic), actions))
  {
    if actions == [] {
      BooksNew(Basic);
    } else {
      var before := Run(NewSystem(Basic), actions[..|actions| - 1]);
      UndisturbedRun(actions[..|actions| - 1]);
      UndisturbedMakesHeadExact(before);
      BooksKept(before, actions[|actions| - 1]);
      UndisturbedKept(before, actions[|actions| - 1]);
    }
  }

  /**
   * Without forward loss a Basic run never negatively acknowledges, however many MSUs are
   * outstanding, and when the forward channel empties everything sent has been delivered.
   */
  lemma LosslessBasicNeverNacks(actions: seq<Action>)
    requires LoseUnit !in actions
    ensures var s := Run(NewSystem(Basic), actions);
            && s.tx.fib && s.rx.bib && s.toggles == 0 && s.tx.basicCursor == None
            && s.delivered <= s.submitted
            && (s.forward == [] ==>
                  s.Numbered() <= |s.submitted| && s.delivered == s.submitted[..s.Numbered()])
  {
    UndisturbedRun(actions);
  }
}
