/**
 * One direction of a signalling link as a state machine: a transmitter, a receiver and two
 * lossy first-in-first-out channels. Units in flight also record what the state was when
 * they were sent (absolute indices, toggles seen), which the two ends never read.
 */
module Session {
  import opened Basics
  import opened Sequence
  import opened Retransmission
  import opened TransmitBuffer

  /**
   * A unit on the forward channel: its frame, the absolute index of its MSU, how many MSUs
   * had been numbered when it was sent, and how many indicator toggles the sender had seen.
   */
  datatype Unit = Unit(frame: TxFrame, index: nat, numbered: nat, sweep: nat)

  /** A unit on the backward channel, with the counts of MSUs accepted and toggles made. */
  datatype Ack = Ack(bsn: octet, bib: bool, accepted: nat, toggles: nat)

  datatype System = System(
    tx: TxState,
    rx: RxState,
    forward: seq<Unit>,
    backward: seq<Ack>,
    submitted: seq<Msu>,
    delivered: seq<Msu>,
    freed: nat,
    toggles: nat,
    seen: nat)
  {
    /** How many MSUs have been given a sequence number. */
    function Numbered(): nat {
      freed + |tx.unacked|
    }
  }

  function NewSystem(scheme: Scheme): System {
    System(NewTx(scheme), NewRx(scheme), [], [], [], [], 0, 0, 0)
  }

  /** SendFill is a unit without an MSU sent by the link without asking the transmitter. */
  datatype Action =
    | Submit(msu: Msu)
    | Poll
    | SendFill(fsn: octet, fib: bool)
    | LoseUnit
    | DeliverUnit
    | ReturnAck
    | LoseAck
    | DeliverAck

  function Polled(s: System): System {
    var (tx', frame) := PollTx(s.tx);
    s.(tx := tx',
       forward := s.forward + [Unit(frame, s.freed + SentPosition(s.tx), s.freed + |tx'.unacked|, s.seen)])
  }

  function Filled(s: System, fsn: octet, fib: bool): System {
    s.(forward := s.forward + [Unit(TxFrame(fsn, fib, Fill), 0, s.Numbered(), s.seen)])
  }

  /** The receiver's part of a delivery: fills carry nothing for it. */
  function Received(s: System, frame: TxFrame): System {
    match frame.body
    case Fill => s
    case Message(m) =>
      var (rx', outcome) := ReceiveMsu(s.rx, frame.fsn, m);
      s.(rx := rx',
         delivered := if outcome.Accepted? then s.delivered + [outcome.msu] else s.delivered,
         toggles := if rx'.bib != s.rx.bib then s.toggles + 1 else s.toggles)
  }

  function Acknowledged(s: System, bsn: octet, bib: bool): System {
    var tx' := AckTx(s.tx, bsn, bib);
    s.(tx := tx',
       freed := s.freed + AckCount(|s.tx.unacked|, s.freed, bsn),
       seen := if tx'.fib != s.tx.fib then s.seen + 1 else s.seen)
  }

  /** An action on an empty channel does nothing. */
  function Apply(s: System, a: Action): System {
    match a
    case Submit(m) => s.(tx := SubmitMsu(s.tx, m), submitted := s.submitted + [m])
    case Poll => Polled(s)
    case SendFill(fsn, fib) => Filled(s, fsn, fib)
    case LoseUnit => if s.forward == [] then s else s.(forward := s.forward[1..])
    case DeliverUnit =>
      if s.forward == [] then s
      else Received(s.(forward := s.forward[1..]), s.forward[0].frame)
    case ReturnAck =>
      s.(backward := s.backward + [Ack(s.rx.lastReceived, s.rx.bib, |s.delivered|, s.toggles)])
    case LoseAck => if s.backward == [] then s else s.(backward := s.backward[1..])
    case DeliverAck =>
      if s.backward == [] then s
      else Acknowledged(s.(backward := s.backward[1..]), s.backward[0].bsn, s.backward[0].bib)
  }

  function Run(s: System, actions: seq<Action>): System {
    if actions == [] then s else Apply(Run(s, actions[..|actions| - 1]), actions[|actions| - 1])
  }

  lemma {:induction false} RunConcat(s: System, x: seq<Action>, y: seq<Action>)
    ensures Run(s, x + y) == Run(Run(s, x), y)
  {
    if y == [] {
      assert x + y == x;
    } else {
      RunConcat(s, x, y[..|y| - 1]);
      assert (x + y)[..|x + y| - 1] == x + y[..|y| - 1];
    }
  }

  lemma RunOne(s: System, a: Action)
    ensures Run(s, [a]) == Apply(s, a)
  {
    assert Run(s, [a][..0]) == s;
  }

  lemma RunTwo(s: System, x: seq<Action>, a: Action, b: Action)
    ensures Run(s, x + [a, b]) == Apply(Apply(Run(s, x), a), b)
  {
    assert (x + [a, b])[..|x| + 1] == x + [a];
    assert (x + [a])[..|x|] == x;
  }

  lemma RunThree(s: System, x: seq<Action>, a: Action, b: Action, c: Action)
    ensures Run(s, x + [a, b, c]) == Apply(Apply(Apply(Run(s, x), a), b), c)
  {
    assert (x + [a, b, c])[..|x| + 2] == x + [a, b];
    RunTwo(s, x, a, b);
  }

  /** The hypothesis on a run: no more than `bound` MSUs are ever outstanding. */
  ghost predicate Windowed(s: System, actions: seq<Action>, bound: nat) {
    && |Run(s, actions).tx.unacked| <= bound
    && (actions != [] ==> Windowed(s, actions[..|actions| - 1], bound))
  }

  lemma {:induction false} WindowedMonotone(s: System, actions: seq<Action>, bound: nat, larger: nat)
    requires Windowed(s, actions, bound) && bound <= larger
    ensures Windowed(s, actions, larger)
  {
    if actions != [] {
      WindowedMonotone(s, actions[..|actions| - 1], bound, larger);
    }
  }

  // ---- Bookkeeping, free of any bound on what is outstanding ----

  ghost predicate UnitOk(s: System, u: Unit) {
    && |s.delivered| <= u.numbered <= s.Numbered()
    && (u.frame.body.Message? ==>
          && u.index < u.numbered <= |s.submitted|
          && u.frame.fsn == Fsn(u.index)
          && u.frame.body.msu == s.submitted[u.index])
  }

  ghost predicate AckOk(s: System, a: Ack) {
    s.freed <= a.accepted <= |s.delivered| && a.bsn == FsnBefore(a.accepted)
  }

  /**
   * What is delivered is a prefix of what was submitted, between what has been released and
   * what has been numbered, and every unit in flight tells the truth about it.
   */
  ghost predicate Books(s: System) {
    && Conserved(s.tx, s.submitted, s.freed)
    && s.freed <= |s.delivered| <= s.Numbered()
    && s.delivered == s.submitted[..|s.delivered|]
    && s.rx.lastReceived == FsnBefore(|s.delivered|)
    && (forall i :: 0 <= i < |s.forward| ==> UnitOk(s, s.forward[i]))
    && (forall i, j :: 0 <= i < j < |s.forward| ==> s.forward[i].numbered <= s.forward[j].numbered)
    && (forall i :: 0 <= i < |s.backward| ==> AckOk(s, s.backward[i]))
    && (forall i, j :: 0 <= i < j < |s.backward| ==> s.backward[i].accepted <= s.backward[j].accepted)
  }

  /** The number of a unit about to be delivered matches only if its index does. */
  ghost predicate HeadExact(s: System) {
    s.forward != [] && s.forward[0].frame.body.Message? ==>
      (SeqForward(s.forward[0].frame.fsn, s.rx.lastReceived) == 1 <==> s.forward[0].index == |s.delivered|)
  }

  lemma BooksNew(scheme: Scheme)
    ensures Books(NewSystem(scheme))
  {
    NewConserved(scheme);
  }

  lemma BooksAfterSend(s: System, u: Unit)
    requires Books(s) && UnitOk(s, u) && u.numbered == s.Numbered()
    ensures Books(s.(forward := s.forward + [u]))
  {
  }

  /** The transmitter may move to any state that conserves the same submissions. */
  lemma BooksAfterMove(s: System, tx: TxState, freed: nat, seen: nat)
    requires Books(s)
    requires Conserved(tx, s.submitted, freed)
    requires freed <= |s.delivered| && s.Numbered() <= freed + |tx.unacked|
    requires forall i :: 0 <= i < |s.backward| ==> freed <= s.backward[i].accepted
    ensures Books(s.(tx := tx, freed := freed, seen := seen))
  {
  }

  lemma BooksAfterPollResult(s: System, tx: TxState, frame: TxFrame, k: nat)
    requires Books(s) && PollResult(s.tx, tx, frame, s.submitted, s.freed, k)
    ensures Books(s.(tx := tx, forward := s.forward + [Unit(frame, s.freed + k, s.freed + |tx.unacked|, s.seen)]))
  {
    BooksAfterMove(s, tx, s.freed, s.seen);
    BooksAfterSend(s.(tx := tx), Unit(frame, s.freed + k, s.freed + |tx.unacked|, s.seen));
  }

  lemma BooksAfterPoll(s: System)
    requires Books(s)
    ensures Books(Polled(s))
  {
    PollConserved(s.tx, s.submitted, s.freed);
    BooksAfterPollResult(s, PollTx(s.tx).0, PollTx(s.tx).1, SentPosition(s.tx));
  }

  /** The expected MSU is accepted. */
  lemma BooksAfterAccept(s: System, rx: RxState)
    requires Books(s) && s.forward != [] && s.forward[0].frame.body.Message?
    requires s.forward[0].index == |s.delivered| && rx.lastReceived == s.forward[0].frame.fsn
    ensures Books(s.(forward := s.forward[1..], rx := rx,
                     delivered := s.delivered + [s.forward[0].frame.body.msu]))
  {
    var u := s.forward[0];
    assert UnitOk(s, u);
    NextFsn(u.index);
    assert s.delivered + [u.frame.body.msu] == s.submitted[..|s.delivered| + 1];
    var rest := s.forward[1..];
    assert forall i :: 0 <= i < |rest| ==> rest[i] == s.forward[i + 1];
  }

  lemma BooksAfterLoss(s: System)
    requires Books(s) && s.forward != []
    ensures Books(s.(forward := s.forward[1..]))
  {
    var rest := s.forward[1..];
    assert forall i :: 0 <= i < |rest| ==> rest[i] == s.forward[i + 1];
  }

  lemma BooksAfterDelivery(s: System)
    requires Books(s) && s.forward != [] && HeadExact(s)
    ensures Books(Apply(s, DeliverUnit))
  {
    var u := s.forward[0];
    BooksAfterLoss(s);
    if u.frame.body.Message? {
      var (rx', outcome) := ReceiveMsu(s.rx, u.frame.fsn, u.frame.body.msu);
      if outcome.Accepted? {
        BooksAfterAccept(s, rx');
      }
    }
  }

  /** An acknowledgement releases nothing the receiver has not accepted. */
  lemma AckNeverAhead(freed: nat, accepted: nat, outstanding: nat)
    requires freed <= accepted
    ensures freed + AckCount(outstanding, freed, FsnBefore(accepted)) <= accepted
  {
    ForwardOfIndices(freed, accepted);
    if accepted == freed {
      assert (accepted - 1 - freed) % SEQ_MODULUS == 127;
    }
  }

  lemma BooksAfterDrop(s: System)
    requires Books(s) && s.backward != []
    ensures var rest := s.(backward := s.backward[1..]);
            && Books(rest)
            && (forall i :: 0 <= i < |rest.backward| ==> s.backward[0].accepted <= rest.backward[i].accepted)
  {
    var rest := s.backward[1..];
    assert forall i :: 0 <= i < |rest| ==> rest[i] == s.backward[i + 1];
  }

  lemma AckReleases(s: System)
    requires Conserved(s.tx, s.submitted, s.freed) && s.backward != []
    ensures var s' := Apply(s, DeliverAck);
            && s' == s.(backward := s.backward[1..], tx := s'.tx, freed := s'.freed, seen := s'.seen)
            && s'.freed == s.freed + AckCount(|s.tx.unacked|, s.freed, s.backward[0].bsn)
            && Conserved(s'.tx, s.submitted, s'.freed) && s'.Numbered() == s.Numbered()
  {
    AckConserved(s.tx, s.submitted, s.freed, s.backward[0].bsn, s.backward[0].bib);
  }

  /** The transmitter takes the oldest acknowledgement and releases what it accepts. */
  lemma BooksAfterRelease(s: System, tx: TxState, freed: nat, seen: nat)
    requires Books(s) && s.backward != []
    requires Conserved(tx, s.submitted, freed)
    requires freed <= s.backward[0].accepted && freed + |tx.unacked| == s.Numbered()
    ensures Books(s.(backward := s.backward[1..], tx := tx, freed := freed, seen := seen))
  {
    assert AckOk(s, s.backward[0]);
    BooksAfterDrop(s);
    BooksAfterMove(s.(backward := s.backward[1..]), tx, freed, seen);
  }

  lemma BooksAfterAck(s: System)
    requires Books(s) && s.backward != []
    ensures Books(Apply(s, DeliverAck))
    ensures Apply(s, DeliverAck).freed <= s.backward[0].accepted
    ensures Apply(s, DeliverAck).Numbered() == s.Numbered()
  {
    var a, s' := s.backward[0], Apply(s, DeliverAck);
    assert AckOk(s, a);
    AckReleases(s);
    AckNeverAhead(s.freed, a.accepted, |s.tx.unacked|);
    BooksAfterRelease(s, s'.tx, s'.freed, s'.seen);
  }

  lemma BooksKept(s: System, a: Action)
    requires Books(s) && (a.DeliverUnit? ==> HeadExact(s))
    ensures Books(Apply(s, a))
  {
    match a
    case Submit(m) => SubmitConserved(s.tx, s.submitted, s.freed, m);
    case Poll => BooksAfterPoll(s);
    case SendFill(fsn, fib) => BooksAfterSend(s, Unit(TxFrame(fsn, fib, Fill), 0, s.Numbered(), s.seen));
    case DeliverUnit => if s.forward != [] { BooksAfterDelivery(s); }
    case DeliverAck => if s.backward != [] { BooksAfterAck(s); }
    case LoseUnit => if s.forward != [] { BooksAfterLoss(s); }
    case LoseAck => if s.backward != [] { BooksAfterDrop(s); }
    case ReturnAck =>
  }
}
