/** The order in which preventive cyclic retransmission repeats the buffer. */
module CyclicOrder {
  import opened Basics
  import opened Sequence
  import opened Retransmission
  import opened TransmitBuffer

  /** The transmit side after n polls more. */
  function AfterPolls(tx: TxState, n: nat): TxState {
    if n == 0 then tx else TxStep(AfterPolls(tx, n - 1), PollOp)
  }

  /** A poll that has just numbered an MSU, or an acknowledgement that has just released one. */
  predicate Renews(before: TxState, op: TxOp, after: TxState) {
    || (op.PollOp? && |after.unacked| > |before.unacked|)
    || (op.AckOp? && |after.unacked| < |before.unacked|)
  }

  lemma RenewedStartsOver(before: TxState, op: TxOp)
    requires before.scheme.Pcr? && Renews(before, op, TxStep(before, op))
    ensures TxStep(before, op).pcrCursor == 0
  {
    if op.AckOp? {
      AckTrims(before, op.bsn, op.bib);
    }
  }

  /** A poll under PCR numbers the oldest pending MSU, or leaves both queues alone. */
  lemma PollNumbersOrNot(tx: TxState)
    requires tx.scheme.Pcr?
    ensures var tx' := PollTx(tx).0;
            && tx'.scheme == tx.scheme && tx'.fib == tx.fib
            && |tx'.pending| <= |tx.pending|
            && (|tx'.pending| == |tx.pending| ==>
                  && tx'.unacked == tx.unacked && tx'.pending == tx.pending
                  && (tx.unacked != [] ==>
                        && PollTx(tx).1 == Copy(tx, CyclicPosition(tx))
                        && tx'.pcrCursor == CyclicPosition(tx) + 1))
  {
  }

  /** i polls after tx that numbered nothing. */
  ghost predicate Repeated(tx: TxState, tx': TxState, i: nat) {
    && tx'.scheme == tx.scheme && tx'.fib == tx.fib
    && tx'.unacked == tx.unacked && tx'.pending == tx.pending
    && (tx.unacked != [] ==> CyclicPosition(tx') == i % |tx.unacked|)
  }

  lemma RepeatedFurther(tx: TxState, tx': TxState, i: nat)
    requires tx.scheme.Pcr? && Repeated(tx, tx', i) && |PollTx(tx').0.pending| == |tx.pending|
    ensures Repeated(tx, PollTx(tx').0, i + 1)
    ensures tx.unacked != [] ==> PollTx(tx').1 == Copy(tx, i % |tx.unacked|)
  {
    PollNumbersOrNot(tx');
    if tx.unacked != [] {
      NextRemainder(i, |tx.unacked|);
    }
  }

  lemma {:induction false} PendingOnlyShrinks(tx: TxState, n: nat)
    requires tx.scheme.Pcr?
    ensures AfterPolls(tx, n).scheme.Pcr? && |AfterPolls(tx, n).pending| <= |tx.pending|
  {
    if n > 0 {
      PendingOnlyShrinks(tx, n - 1);
      PollNumbersOrNot(AfterPolls(tx, n - 1));
    }
  }

  lemma NothingNumberedBefore(tx: TxState, n: nat)
    requires tx.scheme.Pcr? && n > 0 && |AfterPolls(tx, n).pending| == |tx.pending|
    ensures |AfterPolls(tx, n - 1).pending| == |tx.pending|
  {
    PendingOnlyShrinks(tx, n - 1);
    PollNumbersOrNot(AfterPolls(tx, n - 1));
  }

  /** If the last of n polls leaves as many pending as there were, all of them number nothing. */
  lemma {:induction false} PollsRepeat(tx: TxState, n: nat)
    requires tx.scheme.Pcr? && tx.pcrCursor == 0 && |AfterPolls(tx, n).pending| == |tx.pending|
    ensures Repeated(tx, AfterPolls(tx, n), n)
  {
    if n > 0 {
      NothingNumberedBefore(tx, n);
      PollsRepeat(tx, n - 1);
      RepeatedFurther(tx, AfterPolls(tx, n - 1), n - 1);
    }
  }

  /** The oldest unreleased MSU and those after it, over and over. */
  function CyclicFrame(submitted: seq<Msu>, freed: nat, len: nat, i: nat): TxFrame
    requires 0 < len && freed + len <= |submitted|
  {
    TxFrame(Fsn(freed + i % len), true, Message(submitted[freed + i % len]))
  }

  lemma CopyIsCyclic(tx: TxState, submitted: seq<Msu>, freed: nat, i: nat)
    requires Conserved(tx, submitted, freed) && tx.unacked != [] && tx.fib
    ensures Copy(tx, i % |tx.unacked|) == CyclicFrame(submitted, freed, |tx.unacked|, i)
  {
    CopyConserved(tx, tx, submitted, freed, i % |tx.unacked|);
  }

  lemma SweepFrom(tx: TxState, submitted: seq<Msu>, i: nat)
    requires tx.scheme.Pcr? && tx.pcrCursor == 0 && tx.fib && tx.unacked != []
    requires Released(tx, submitted) >= 0 && Conserved(tx, submitted, Released(tx, submitted))
    requires |AfterPolls(tx, i + 1).pending| == |tx.pending|
    ensures PollTx(AfterPolls(tx, i)).1 == CyclicFrame(submitted, Released(tx, submitted), |tx.unacked|, i)
  {
    PendingOnlyShrinks(tx, i);
    PollNumbersOrNot(AfterPolls(tx, i));
    PollsRepeat(tx, i);
    RepeatedFurther(tx, AfterPolls(tx, i), i);
    CopyIsCyclic(tx, submitted, Released(tx, submitted), i);
  }

  lemma {:induction false} PcrSchemeAndBit(params: PcrParams, ops: seq<TxOp>)
    ensures TxRun(Pcr(params), ops).scheme == Pcr(params) && TxRun(Pcr(params), ops).fib
  {
    if ops != [] {
      var before := TxRun(Pcr(params), ops[..|ops| - 1]);
      PcrSchemeAndBit(params, ops[..|ops| - 1]);
      if ops[|ops| - 1].PollOp? {
        PollNumbersOrNot(before);
      }
    }
  }

  /**
   * After a poll that numbers an MSU or an acknowledgement that releases one, as long as the
   * polls that follow number nothing, the i-th of them repeats the i-th MSU of the buffer,
   * counted from the oldest and modulo the length of the buffer.
   */
  lemma SweepsFromTheOldest(params: PcrParams, ops: seq<TxOp>, i: nat)
    requires ops != []
    requires Renews(TxRun(Pcr(params), ops[..|ops| - 1]), ops[|ops| - 1], TxRun(Pcr(params), ops))
    requires |AfterPolls(TxRun(Pcr(params), ops), i + 1).pending| == |TxRun(Pcr(params), ops).pending|
    requires TxRun(Pcr(params), ops).unacked != []
    ensures var tx, submitted := TxRun(Pcr(params), ops), Submissions(ops);
            var freed, len := Released(tx, submitted), |tx.unacked|;
            && 0 <= freed && freed + len <= |submitted|
            && PollTx(AfterPolls(tx, i)).1 == CyclicFrame(submitted, freed, len, i)
  {
    var before, tx := TxRun(Pcr(params), ops[..|ops| - 1]), TxRun(Pcr(params), ops);
    PcrSchemeAndBit(params, ops[..|ops| - 1]);
    PcrSchemeAndBit(params, ops);
    TransmitConservation(Pcr(params), ops);
    RenewedStartsOver(before, ops[|ops| - 1]);
    SweepFrom(tx, Submissions(ops), i);
  }

  lemma FillHasLastNumber(tx: TxState)
    ensures PollTx(tx).1.body.Fill? ==> PollTx(tx).1 == TxFrame(tx.lastFsn, tx.fib, Fill)
  {
  }

  /** In every run of either scheme a fill-in frame carries the last number given, and FIB. */
  lemma FillCarriesLastNumber(scheme: Scheme, ops: seq<TxOp>)
    ensures var tx, submitted := TxRun(scheme, ops), Submissions(ops);
            && |tx.pending| <= |submitted|
            && (PollTx(tx).1.body.Fill? ==>
                  PollTx(tx).1 == TxFrame(FsnBefore(|submitted| - |tx.pending|), tx.fib, Fill))
  {
    TransmitConservation(scheme, ops);
    var tx := TxRun(scheme, ops);
    FillHasLastNumber(tx);
    assert tx.lastFsn == FsnBefore(|Submissions(ops)| - |tx.pending|);
  }
}
