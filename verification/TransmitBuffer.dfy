/**
 * What the transmit side keeps whatever acknowledgements it receives: nothing submitted is
 * lost, duplicated or reordered between submission and release from the buffer.
 */
module TransmitBuffer {
  import opened Basics
  import opened Sequence
  import opened Retransmission

  /**
   * The submitted MSUs are, in order, `freed` released ones, the retransmission buffer and
   * the pending queue, and the buffer carries their indices modulo 128.
   */
  ghost predicate Conserved(tx: TxState, submitted: seq<Msu>, freed: nat) {
    && |submitted| == freed + |tx.unacked| + |tx.pending|
    && (forall i :: 0 <= i < |tx.unacked| ==>
          tx.unacked[i] == BufferedMsu(Fsn(freed + i), submitted[freed + i]))
    && tx.pending == submitted[freed + |tx.unacked|..]
    && tx.lastFsn == FsnBefore(freed + |tx.unacked|)
  }

  /** How many entries a BSN releases when the oldest entry has absolute index `freed`. */
  function AckCount(outstanding: nat, freed: nat, bsn: octet): nat {
    var d := SeqForward(bsn, Fsn(freed));
    if d >= SEQ_HALF then 0 else if d + 1 <= outstanding then d + 1 else outstanding
  }

  lemma NextForward(bsn: octet, k: nat)
    ensures var d := SeqForward(bsn, Fsn(k));
            SeqForward(bsn, Fsn(k + 1)) == if d == 0 then 127 else d - 1
  {
    assert Fsn(k + 1) == if Fsn(k) == 127 then 0 else Fsn(k) + 1;
  }

  lemma {:induction false} DropAckedClosedForm(buffer: seq<BufferedMsu>, freed: nat, bsn: octet)
    requires forall i :: 0 <= i < |buffer| ==> buffer[i].fsn == Fsn(freed + i)
    ensures DropAcked(buffer, bsn) == buffer[AckCount(|buffer|, freed, bsn)..]
  {
    if buffer != [] && SeqForward(bsn, buffer[0].fsn) < SEQ_HALF {
      DropAckedClosedForm(buffer[1..], freed + 1, bsn);
      NextForward(bsn, freed);
      var n := AckCount(|buffer| - 1, freed + 1, bsn);
      assert buffer[1..][n..] == buffer[n + 1..];
    }
  }

  /** The buffer position, after the poll, of the MSU a poll sends. */
  function SentPosition(tx: TxState): nat {
    match tx.scheme
    case Basic => if Sweeping(tx) then tx.basicCursor.value else |tx.unacked|
    case Pcr(params) =>
      if !Forced(tx, params) && tx.pending != [] then |tx.unacked| else CyclicPosition(tx)
  }

  lemma NewConserved(scheme: Scheme)
    ensures Conserved(NewTx(scheme), [], 0)
  {
  }

  lemma SubmitConserved(tx: TxState, submitted: seq<Msu>, freed: nat, m: Msu)
    requires Conserved(tx, submitted, freed)
    ensures Conserved(SubmitMsu(tx, m), submitted + [m], freed)
  {
  }

  lemma SendNewConserved(tx: TxState, submitted: seq<Msu>, freed: nat)
    requires Conserved(tx, submitted, freed) && tx.pending != []
    ensures var sent := freed + |tx.unacked|;
            && Conserved(SendNew(tx).0, submitted, freed)
            && SendNew(tx).1 == TxFrame(Fsn(sent), tx.fib, Message(submitted[sent]))
  {
    NextFsn(freed + |tx.unacked|);
  }

  /** A poll that sends a copy changes cursors only. */
  lemma CopyConserved(tx: TxState, tx': TxState, submitted: seq<Msu>, freed: nat, i: nat)
    requires Conserved(tx, submitted, freed) && i < |tx.unacked|
    requires tx' == tx.(basicCursor := tx'.basicCursor, pcrCursor := tx'.pcrCursor)
    ensures Conserved(tx', submitted, freed)
    ensures Copy(tx, i) == TxFrame(Fsn(freed + i), tx.fib, Message(submitted[freed + i]))
  {
  }

  /** The books after a poll, whose frame stands for the entry at position k. */
  ghost predicate PollResult(tx: TxState, tx': TxState, frame: TxFrame, submitted: seq<Msu>, freed: nat, k: nat) {
    && Conserved(tx', submitted, freed)
    && tx'.fib == tx.fib == frame.fib && tx'.scheme == tx.scheme
    && |tx.unacked| <= |tx'.unacked| <= |tx.unacked| + 1
    && tx.unacked <= tx'.unacked
    && (frame.body.Message? ==>
          k < |tx'.unacked| && frame == TxFrame(Fsn(freed + k), tx.fib, Message(submitted[freed + k])))
    && (frame.body.Fill? ==> tx'.unacked == tx.unacked)
  }

  lemma PollBasicConserved(tx: TxState, submitted: seq<Msu>, freed: nat)
    requires Conserved(tx, submitted, freed) && tx.scheme.Basic?
    ensures PollResult(tx, PollBasic(tx).0, PollBasic(tx).1, submitted, freed, SentPosition(tx))
  {
    if Sweeping(tx) {
      CopyConserved(tx, PollBasic(tx).0, submitted, freed, tx.basicCursor.value);
    } else if tx.pending != [] {
      SendNewConserved(tx.(basicCursor := None), submitted, freed);
    }
  }

  lemma PollPcrConserved(tx: TxState, submitted: seq<Msu>, freed: nat)
    requires Conserved(tx, submitted, freed) && tx.scheme.Pcr?
    ensures var (tx', frame) := PollPcr(tx, tx.scheme.params);
            PollResult(tx, tx', frame, submitted, freed, SentPosition(tx))
  {
    if !Forced(tx, tx.scheme.params) && tx.pending != [] {
      SendNewConserved(tx, submitted, freed);
    } else if tx.unacked != [] {
      CopyConserved(tx, PollPcr(tx, tx.scheme.params).0, submitted, freed, CyclicPosition(tx));
    }
  }

  /** A poll keeps the books, and the frame it emits is exactly the entry it stands for. */
  lemma PollConserved(tx: TxState, submitted: seq<Msu>, freed: nat)
    requires Conserved(tx, submitted, freed)
    ensures PollResult(tx, PollTx(tx).0, PollTx(tx).1, submitted, freed, SentPosition(tx))
  {
    match tx.scheme
    case Basic => PollBasicConserved(tx, submitted, freed);
    case Pcr(_) => PollPcrConserved(tx, submitted, freed);
  }

  /** An acknowledgement, however nonsensical, only releases a prefix of the buffer. */
  lemma AckConserved(tx: TxState, submitted: seq<Msu>, freed: nat, bsn: octet, bib: bool)
    requires Conserved(tx, submitted, freed)
    ensures var n := AckCount(|tx.unacked|, freed, bsn);
            && Conserved(AckTx(tx, bsn, bib), submitted, freed + n)
            && AckTx(tx, bsn, bib).unacked == tx.unacked[n..]
            && AckTx(tx, bsn, bib).scheme == tx.scheme
  {
    DropAckedClosedForm(tx.unacked, freed, bsn);
  }

  // ---- Runs of one transmit side against an arbitrary peer ----

  datatype TxOp = SubmitOp(msu: Msu) | PollOp | AckOp(bsn: octet, bib: bool)

  function TxStep(tx: TxState, op: TxOp): TxState {
    match op
    case SubmitOp(m) => SubmitMsu(tx, m)
    case PollOp => PollTx(tx).0
    case AckOp(bsn, bib) => AckTx(tx, bsn, bib)
  }

  function TxRun(scheme: Scheme, ops: seq<TxOp>): TxState {
    if ops == [] then NewTx(scheme) else TxStep(TxRun(scheme, ops[..|ops| - 1]), ops[|ops| - 1])
  }

  function SubmittedBy(op: TxOp): seq<Msu> {
    if op.SubmitOp? then [op.msu] else []
  }

  function Submissions(ops: seq<TxOp>): seq<Msu> {
    if ops == [] then [] else Submissions(ops[..|ops| - 1]) + SubmittedBy(ops[|ops| - 1])
  }

  /** How many of the submitted MSUs have left the buffer for good. */
  function Released(tx: TxState, submitted: seq<Msu>): int {
    |submitted| - |tx.unacked| - |tx.pending|
  }

  lemma ReleasedIs(tx: TxState, submitted: seq<Msu>, freed: nat)
    requires Conserved(tx, submitted, freed)
    ensures Released(tx, submitted) == freed
  {
  }

  /** The books balance, and nothing released has come back. */
  ghost predicate Balanced(tx: TxState, submitted: seq<Msu>, least: int) {
    && least <= Released(tx, submitted) && 0 <= Released(tx, submitted)
    && Conserved(tx, submitted, Released(tx, submitted))
  }

  lemma SubmitBalanced(tx: TxState, submitted: seq<Msu>, least: int, m: Msu)
    requires Balanced(tx, submitted, least)
    ensures Balanced(SubmitMsu(tx, m), submitted + [m], least)
  {
    SubmitConserved(tx, submitted, Released(tx, submitted), m);
    ReleasedIs(SubmitMsu(tx, m), submitted + [m], Released(tx, submitted));
  }

  lemma PollBalanced(tx: TxState, submitted: seq<Msu>, least: int)
    requires Balanced(tx, submitted, least)
    ensures Balanced(PollTx(tx).0, submitted, least)
  {
    PollConserved(tx, submitted, Released(tx, submitted));
    ReleasedIs(PollTx(tx).0, submitted, Released(tx, submitted));
  }

  lemma AckBalanced(tx: TxState, submitted: seq<Msu>, least: int, bsn: octet, bib: bool)
    requires Balanced(tx, submitted, least)
    ensures Balanced(AckTx(tx, bsn, bib), submitted, least)
  {
    var freed := Released(tx, submitted);
    AckConserved(tx, submitted, freed, bsn, bib);
    ReleasedIs(AckTx(tx, bsn, bib), submitted, freed + AckCount(|tx.unacked|, freed, bsn));
  }

  lemma StepConserved(tx: TxState, submitted: seq<Msu>, op: TxOp)
    requires Balanced(tx, submitted, 0)
    ensures Balanced(TxStep(tx, op), submitted + SubmittedBy(op), Released(tx, submitted))
  {
    assert op.SubmitOp? || submitted + SubmittedBy(op) == submitted;
    match op
    case SubmitOp(m) => SubmitBalanced(tx, submitted, Released(tx, submitted), m);
    case PollOp => PollBalanced(tx, submitted, Released(tx, submitted));
    case AckOp(bsn, bib) => AckBalanced(tx, submitted, Released(tx, submitted), bsn, bib);
  }

  /** Every run, whatever is acknowledged, conserves the submitted MSUs. */
  lemma {:induction false} TransmitConservation(scheme: Scheme, ops: seq<TxOp>)
    ensures var (tx, submitted) := (TxRun(scheme, ops), Submissions(ops));
            && Released(tx, submitted) >= 0
            && Conserved(tx, submitted, Released(tx, submitted))
  {
    if ops == [] {
      NewConserved(scheme);
    } else {
      var before := ops[..|ops| - 1];
      TransmitConservation(scheme, before);
      StepConserved(TxRun(scheme, before), Submissions(before), ops[|ops| - 1]);
    }
  }

  // ---- Preventive cyclic retransmission bounds ----

  lemma {:induction false} OctetsOfConcat(x: seq<BufferedMsu>, y: seq<BufferedMsu>)
    ensures Octets(x + y) == Octets(x) + Octets(y)
  {
    if x == [] {
      assert x + y == y;
    } else {
      assert (x + y)[1..] == x[1..] + y;
      OctetsOfConcat(x[1..], y);
    }
  }

  lemma {:induction false} OctetsAtLeastLength(x: seq<BufferedMsu>)
    ensures Octets(x) >= |x|
  {
    if x != [] {
      OctetsAtLeastLength(x[1..]);
    }
  }

  /** Under PCR the buffer holds at most N1 MSUs and, at one octet or more each, at most N2. */
  ghost predicate PcrWindow(tx: TxState) {
    tx.scheme.Pcr? ==>
      |tx.unacked| <= tx.scheme.params.n1 && |tx.unacked| <= tx.scheme.params.n2
  }

  /** No pending MSU exceeds `largest` octets, and the buffer stays below N2 + `largest`. */
  ghost predicate PcrOctets(tx: TxState, largest: nat) {
    tx.scheme.Pcr? ==>
      && (tx.unacked != [] ==> Octets(tx.unacked) < tx.scheme.params.n2 + largest)
      && (forall i :: 0 <= i < |tx.pending| ==> tx.pending[i].Octets() <= largest)
  }

  lemma PollPcrWindow(tx: TxState)
    requires PcrWindow(tx)
    ensures PcrWindow(PollTx(tx).0)
  {
    OctetsAtLeastLength(tx.unacked);
  }

  lemma PollPcrOctets(tx: TxState, largest: nat)
    requires PcrOctets(tx, largest)
    ensures PcrOctets(PollTx(tx).0, largest)
  {
    if tx.scheme.Pcr? && !Forced(tx, tx.scheme.params) && tx.pending != [] {
      var added := [BufferedMsu(SeqAdd(tx.lastFsn, 1), tx.pending[0])];
      OctetsOfConcat(tx.unacked, added);
      assert Octets(added) == tx.pending[0].Octets() by {
        assert added[1..] == [];
      }
    }
  }

  lemma {:induction false} DropAckedIsSuffix(buffer: seq<BufferedMsu>, bsn: octet)
    ensures var kept := DropAcked(buffer, bsn);
            |kept| <= |buffer| && kept == buffer[|buffer| - |kept|..] && Octets(kept) <= Octets(buffer)
  {
    if buffer != [] && SeqForward(bsn, buffer[0].fsn) < SEQ_HALF {
      DropAckedIsSuffix(buffer[1..], bsn);
    }
  }

  /** What an acknowledgement leaves of the queues. */
  predicate Trimmed(tx: TxState, tx': TxState) {
    && tx'.scheme == tx.scheme && tx'.lastFsn == tx.lastFsn && tx'.pending == tx.pending
    && |tx'.unacked| <= |tx.unacked| && tx'.unacked == tx.unacked[|tx.unacked| - |tx'.unacked|..]
    && Octets(tx'.unacked) <= Octets(tx.unacked)
  }

  lemma AckTrims(tx: TxState, bsn: octet, bib: bool)
    ensures Trimmed(tx, AckTx(tx, bsn, bib))
  {
    var kept := DropAcked(tx.unacked, bsn);
    DropAckedIsSuffix(tx.unacked, bsn);
    assert Positive(tx, bsn).unacked == kept;
  }

  lemma TrimmedPcrBounds(tx: TxState, tx': TxState, largest: nat)
    requires PcrWindow(tx) && Trimmed(tx, tx')
    ensures PcrWindow(tx')
    ensures PcrOctets(tx, largest) ==> PcrOctets(tx', largest)
  {
  }

  lemma AckPcrBounds(tx: TxState, largest: nat, bsn: octet, bib: bool)
    requires PcrWindow(tx)
    ensures PcrWindow(AckTx(tx, bsn, bib))
    ensures PcrOctets(tx, largest) ==> PcrOctets(AckTx(tx, bsn, bib), largest)
  {
    AckTrims(tx, bsn, bib);
    TrimmedPcrBounds(tx, AckTx(tx, bsn, bib), largest);
  }

  /** In every PCR run the bounds hold and the forward indicator bit never changes. */
  lemma {:induction false} PcrBounds(params: PcrParams, ops: seq<TxOp>, largest: nat)
    requires forall i :: 0 <= i < |ops| && ops[i].SubmitOp? ==> ops[i].msu.Octets() <= largest
    ensures var tx := TxRun(Pcr(params), ops);
            tx.scheme == Pcr(params) && tx.fib && PcrWindow(tx) && PcrOctets(tx, largest)
  {
    if ops != [] {
      var tx := TxRun(Pcr(params), ops[..|ops| - 1]);
      PcrBounds(params, ops[..|ops| - 1], largest);
      match ops[|ops| - 1]
      case SubmitOp(m) =>
      case PollOp =>
        PollPcrWindow(tx);
        PollPcrOctets(tx, largest);
      case AckOp(bsn, bib) => AckPcrBounds(tx, largest, bsn, bib);
    }
  }
}
