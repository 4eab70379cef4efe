/**
 * Error correction: what one transmit side and one receive side do, as functions of their
 * state. The classes in RetransmissionControl.dfy carry these out in place.
 */
module Retransmission {
  import opened Basics
  import opened Sequence

  datatype PcrParams = PcrParams(n1: nat, n2: nat)

  datatype Scheme = Basic | Pcr(params: PcrParams)

  datatype BufferedMsu = BufferedMsu(fsn: octet, msu: Msu)

  datatype TxBody = Fill | Message(msu: Msu)

  datatype TxFrame = TxFrame(fsn: octet, fib: bool, body: TxBody)

  datatype TxState = TxState(
    scheme: Scheme,
    lastFsn: octet,
    fib: bool,
    pending: seq<Msu>,
    unacked: seq<BufferedMsu>,
    basicCursor: Option<nat>,
    pcrCursor: nat)

  function NewTx(scheme: Scheme): TxState {
    TxState(scheme, SEQ_MODULUS - 1, true, [], [], None, 0)
  }

  function SubmitMsu(tx: TxState, m: Msu): TxState {
    tx.(pending := tx.pending + [m])
  }

  function Octets(buffer: seq<BufferedMsu>): nat {
    if buffer == [] then 0 else buffer[0].msu.Octets() + Octets(buffer[1..])
  }

  /** Number, buffer and send the oldest pending MSU. */
  function SendNew(tx: TxState): (TxState, TxFrame)
    requires tx.pending != []
  {
    var fsn := SeqAdd(tx.lastFsn, 1);
    (tx.(lastFsn := fsn,
         pending := tx.pending[1..],
         unacked := tx.unacked + [BufferedMsu(fsn, tx.pending[0])]),
     TxFrame(fsn, tx.fib, Message(tx.pending[0])))
  }

  /** A copy of the buffered MSU at position i. */
  function Copy(tx: TxState, i: nat): TxFrame
    requires i < |tx.unacked|
  {
    TxFrame(tx.unacked[i].fsn, tx.fib, Message(tx.unacked[i].msu))
  }

  function FillFrame(tx: TxState): TxFrame {
    TxFrame(tx.lastFsn, tx.fib, Fill)
  }

  predicate Sweeping(tx: TxState) {
    tx.basicCursor.Some? && tx.basicCursor.value < |tx.unacked|
  }

  function PollBasic(tx: TxState): (TxState, TxFrame) {
    if Sweeping(tx) then
      (tx.(basicCursor := Some(tx.basicCursor.value + 1)), Copy(tx, tx.basicCursor.value))
    else
      var idle := tx.(basicCursor := None);
      if idle.pending != [] then SendNew(idle) else (idle, FillFrame(idle))
  }

  predicate Forced(tx: TxState, params: PcrParams) {
    |tx.unacked| >= params.n1 || Octets(tx.unacked) >= params.n2
  }

  /** The cyclic cursor, wrapped to the head of the buffer at its end. */
  function CyclicPosition(tx: TxState): nat {
    if tx.pcrCursor >= |tx.unacked| then 0 else tx.pcrCursor
  }

  function PollPcr(tx: TxState, params: PcrParams): (TxState, TxFrame) {
    if !Forced(tx, params) && tx.pending != [] then
      var (sent, frame) := SendNew(tx);
      (sent.(pcrCursor := 0), frame)
    else if tx.unacked != [] then
      (tx.(pcrCursor := CyclicPosition(tx) + 1), Copy(tx, CyclicPosition(tx)))
    else
      (tx, FillFrame(tx))
  }

  function PollTx(tx: TxState): (TxState, TxFrame) {
    match tx.scheme
    case Basic => PollBasic(tx)
    case Pcr(params) => PollPcr(tx, params)
  }

  /** What a backward sequence number leaves in the retransmission buffer. */
  function DropAcked(buffer: seq<BufferedMsu>, bsn: octet): seq<BufferedMsu> {
    if buffer != [] && SeqForward(bsn, buffer[0].fsn) < SEQ_HALF
    then DropAcked(buffer[1..], bsn)
    else buffer
  }

  function Positive(tx: TxState, bsn: octet): TxState {
    var kept := DropAcked(tx.unacked, bsn);
    if |kept| < |tx.unacked| then
      tx.(unacked := kept,
          pcrCursor := 0,
          basicCursor := match tx.basicCursor
                         case None => None
                         case Some(c) => Some(if c == 0 then 0 else c - 1))
    else
      tx
  }

  function Negative(tx: TxState, bib: bool): TxState {
    if tx.scheme.Basic? && bib != tx.fib then
      tx.(fib := bib, basicCursor := if tx.unacked != [] then Some(0) else tx.basicCursor)
    else
      tx
  }

  function AckTx(tx: TxState, bsn: octet, bib: bool): TxState {
    Negative(Positive(tx, bsn), bib)
  }

  datatype RxState = RxState(scheme: Scheme, lastReceived: octet, bib: bool, nackPending: bool)

  datatype RxOutcome = Accepted(msu: Msu) | Discarded | RetransmissionRequested

  function NewRx(scheme: Scheme): RxState {
    RxState(scheme, SEQ_MODULUS - 1, true, false)
  }

  function ReceiveMsu(rx: RxState, fsn: octet, m: Msu): (RxState, RxOutcome) {
    var dist := SeqForward(fsn, rx.lastReceived);
    if dist == 1 then
      (rx.(lastReceived := fsn, nackPending := false), Accepted(m))
    else if rx.scheme.Basic? && dist < SEQ_HALF then
      (if rx.nackPending then rx else rx.(bib := !rx.bib, nackPending := true), RetransmissionRequested)
    else
      (rx, Discarded)
  }
}
