/** Two links back to back over two lossy first-in-first-out channels. */
module TwoLinks {
  import opened Basics
  import opened SignalUnits
  import opened LinkControl
  import opened LinkInvariants
  import opened ProvingPeriod

  /**
   * One end: its link and drained events, what was queued since its last start, how often it
   * was started and whether it has ever completed proving.
   */
  datatype End = End(trace: Trace, submitted: seq<Msu>, starts: nat, proved: bool)

  function NewEnd(config: LinkConfig): End {
    End(Trace(NewLink(config), []), [], 0, false)
  }

  function EndStep(e: End, op: LinkOp): End {
    var link := e.trace.link;
    var trace' := TraceStep(e.trace, op);
    End(trace',
        if Restarts(link, op) then []
        else if op.SubmitOp? && op.msu.Octets() <= MAX_MSU_BODY then e.submitted + [op.msu]
        else e.submitted,
        if Restarts(link, op) then e.starts + 1 else e.starts,
        e.proved || (link.state.Proving? && Ready(trace'.link)))
  }

  /** Ends a and b, what is in flight from a to b, and from b to a. */
  datatype Pair = Pair(a: End, b: End, ab: seq<SignalUnit>, ba: seq<SignalUnit>)

  function NewPair(configA: LinkConfig, configB: LinkConfig): Pair {
    Pair(NewEnd(configA), NewEnd(configB), [], [])
  }

  /**
   * What happens at one end: a local operation, a unit sent, or the oldest unit in flight
   * towards it delivered, lost, or received corrupted.
   */
  datatype Act = Local(op: LinkOp) | Send | Deliver | Lose | Corrupt

  function StepA(p: Pair, act: Act): Pair {
    match act
    case Local(op) =>
      if op.TransmitOp? || op.ReceiveOp? then p else p.(a := EndStep(p.a, op))
    case Send =>
      var out := Transmit(p.a.trace.link).1;
      p.(a := EndStep(p.a, TransmitOp), ab := p.ab + (if out.Some? then [out.value] else []))
    case Deliver =>
      if p.ba == [] then p else p.(a := EndStep(p.a, ReceiveOp(p.ba[0])), ba := p.ba[1..])
    case Lose => if p.ba == [] then p else p.(ba := p.ba[1..])
    case Corrupt => if p.ba == [] then p else p.(a := EndStep(p.a, CorruptedOp), ba := p.ba[1..])
  }

  function Swap(p: Pair): Pair {
    Pair(p.b, p.a, p.ba, p.ab)
  }

  datatype PairAct = AtA(act: Act) | AtB(act: Act)

  function PairStep(p: Pair, x: PairAct): Pair {
    match x
    case AtA(act) => StepA(p, act)
    case AtB(act) => Swap(StepA(Swap(p), act))
  }

  function PairRun(configA: LinkConfig, configB: LinkConfig, acts: seq<PairAct>): Pair {
    if acts == [] then NewPair(configA, configB)
    else PairStep(PairRun(configA, configB, acts[..|acts| - 1]), acts[|acts| - 1])
  }
}
