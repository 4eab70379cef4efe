/** The transmit and receive controllers as the program keeps them: objects updated in place. */
module RetransmissionControl {
  import opened Basics
  import opened Sequence
  import opened Retransmission

  class TxControl {
    const scheme: Scheme
    var lastFsn: octet
    var fib: bool
    var pending: seq<Msu>
    var unacked: seq<BufferedMsu>
    var basicCursor: Option<nat>
    var pcrCursor: nat

    ghost function State(): TxState
      reads this
    {
      TxState(scheme, lastFsn, fib, pending, unacked, basicCursor, pcrCursor)
    }

    constructor (scheme: Scheme)
      ensures State() == NewTx(scheme)
    {
      this.scheme := scheme;
      lastFsn := SEQ_MODULUS - 1;
      fib := true;
      pending := [];
      unacked := [];
      basicCursor := None;
      pcrCursor := 0;
    }

    method Submit(m: Msu)
      modifies this
      ensures State() == SubmitMsu(old(State()), m)
    {
      pending := pending + [m];
    }

    method UnackedOctets() returns (total: nat)
      ensures total == Octets(unacked)
    {
      total := 0;
      for i := |unacked| downto 0
        invariant total == Octets(unacked[i..])
      {
        assert unacked[i..][1..] == unacked[i + 1..];
        total := unacked[i].msu.Octets() + total;
      }
      assert unacked[0..] == unacked;
    }

    method Poll() returns (frame: TxFrame)
      modifies this
      ensures (State(), frame) == PollTx(old(State()))
    {
      match scheme
      case Basic => frame := PollBasic();
      case Pcr(params) => frame := PollPcr(params);
    }

    method SendPending() returns (frame: TxFrame)
      requires pending != []
      modifies this
      ensures (State(), frame) == SendNew(old(State()))
    {
      var m := pending[0];
      pending := pending[1..];
      var fsn := SeqAdd(lastFsn, 1);
      lastFsn := fsn;
      unacked := unacked + [BufferedMsu(fsn, m)];
      frame := TxFrame(fsn, fib, Message(m));
    }

    method PollBasic() returns (frame: TxFrame)
      modifies this
      ensures (State(), frame) == Retransmission.PollBasic(old(State()))
    {
      if basicCursor.Some? {
        var cursor := basicCursor.value;
        if cursor < |unacked| {
          var m := unacked[cursor];
          basicCursor := Some(cursor + 1);
          return TxFrame(m.fsn, fib, Message(m.msu));
        }
        basicCursor := None;
      }
      if pending != [] {
        frame := SendPending();
      } else {
        frame := TxFrame(lastFsn, fib, Fill);
      }
    }

    method PollPcr(params: PcrParams) returns (frame: TxFrame)
      modifies this
      ensures (State(), frame) == Retransmission.PollPcr(old(State()), params)
    {
      var octets := UnackedOctets();
      var forced := |unacked| >= params.n1 || octets >= params.n2;
      if !forced && pending != [] {
        frame := SendPending();
        pcrCursor := 0;
        return;
      }
      if unacked != [] {
        if pcrCursor >= |unacked| {
          pcrCursor := 0;
        }
        var m := unacked[pcrCursor];
        pcrCursor := pcrCursor + 1;
        return TxFrame(m.fsn, fib, Message(m.msu));
      }
      frame := TxFrame(lastFsn, fib, Fill);
    }

    method OnAck(bsn: octet, bib: bool)
      modifies this
      ensures State() == AckTx(old(State()), bsn, bib)
    {
      var freed := false;
      while unacked != [] && SeqForward(bsn, unacked[0].fsn) < SEQ_HALF
        invariant State() == old(State()).(unacked := unacked)
        invariant if freed then |unacked| < |old(unacked)| else unacked == old(unacked)
        invariant DropAcked(unacked, bsn) == DropAcked(old(unacked), bsn)
        decreases |unacked|
      {
        unacked := unacked[1..];
        freed := true;
      }
      if freed {
        pcrCursor := 0;
        if basicCursor.Some? {
          basicCursor := Some(if basicCursor.value == 0 then 0 else basicCursor.value - 1);
        }
      }
      assert State() == Positive(old(State()), bsn);
      if scheme.Basic? && bib != fib {
        fib := bib;
        if unacked != [] {
          basicCursor := Some(0);
        }
      }
    }
  }

  class RxControl {
    const scheme: Scheme
    var lastReceived: octet
    var bib: bool
    var nackPending: bool

    ghost function State(): RxState
      reads this
    {
      RxState(scheme, lastReceived, bib, nackPending)
    }

    constructor (scheme: Scheme)
      ensures State() == NewRx(scheme)
    {
      this.scheme := scheme;
      lastReceived := SEQ_MODULUS - 1;
      bib := true;
      nackPending := false;
    }

    method OnMsu(fsn: octet, m: Msu) returns (outcome: RxOutcome)
      modifies this
      ensures (State(), outcome) == ReceiveMsu(old(State()), fsn, m)
    {
      var dist := SeqForward(fsn, lastReceived);
      if dist == 1 {
        lastReceived := fsn;
        nackPending := false;
        return Accepted(m);
      }
      if scheme.Basic? && dist < SEQ_HALF {
        if !nackPending {
          bib := !bib;
          nackPending := true;
        }
        return RetransmissionRequested;
      }
      return Discarded;
    }
  }
}
