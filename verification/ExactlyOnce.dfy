/** Exactly-once, in-order delivery over lossy channels, in runs that keep to a window. */
module ExactlyOnce {
  import opened Sequence
  import opened Retransmission
  import opened TransmitBuffer
  import opened Session
  import opened Handshake

  const WINDOW := 127

  /** What may be outstanding: the handshake of the Basic method allows one MSU more. */
  function WindowOf(scheme: Scheme): nat {
    if scheme.Basic? then BASIC_WINDOW else WINDOW
  }

  ghost predicate PcrInWindow(s: System) {
    && |s.tx.unacked| <= WINDOW
    && (forall i :: 0 <= i < |s.forward| ==>
          && s.forward[i].numbered <= |s.delivered| + WINDOW
          && (s.forward[i].frame.body.Message? ==>
                s.forward[i].numbered <= s.forward[i].index + WINDOW))
  }

  /**
   * Under PCR, first-in-first-out order bounds how stale or how early a unit in flight can
   * be; under the Basic method the handshake does.
   */
  ghost predicate InWindow(s: System) {
    if s.tx.scheme.Basic? then Shaken(s) else PcrInWindow(s)
  }

  lemma InWindowNew(scheme: Scheme)
    ensures InWindow(NewSystem(scheme))
  {
    ShakenNew();
  }

  lemma WindowMakesHeadExact(s: System)
    requires Books(s) && InWindow(s)
    ensures HeadExact(s)
  {
    if s.tx.scheme.Basic? {
      ShakenMakesHeadExact(s);
    } else if s.forward != [] && s.forward[0].frame.body.Message? {
      assert UnitOk(s, s.forward[0]);
      WindowMakesFsnExact(s.forward[0].index, |s.delivered|);
    }
  }

  lemma SchemeStays(s: System, a: Action)
    ensures Apply(s, a).tx.scheme == s.tx.scheme
  {
  }

  lemma PcrWindowKept(s: System, a: Action)
    requires Books(s) && PcrInWindow(s) && s.tx.scheme.Pcr?
    requires |Apply(s, a).tx.unacked| <= WINDOW
    ensures PcrInWindow(Apply(s, a))
  {
    if a.Poll? {
      PollConserved(s.tx, s.submitted, s.freed);
    }
  }

  lemma WindowKept(s: System, a: Action)
    requires Books(s) && InWindow(s)
    requires |Apply(s, a).tx.unacked| <= WindowOf(s.tx.scheme)
    ensures InWindow(Apply(s, a))
  {
    SchemeStays(s, a);
    if s.tx.scheme.Basic? {
      ShakenKept(s, a);
    } else {
      PcrWindowKept(s, a);
    }
  }

  lemma {:induction false} SafetyInvariant(scheme: Scheme, actions: seq<Action>)
    requires Windowed(NewSystem(scheme), actions, WindowOf(scheme))
    ensures var s := Run(NewSystem(scheme), actions);
            Books(s) && InWindow(s) && s.tx.scheme == scheme
  {
    if actions == [] {
      BooksNew(scheme);
      InWindowNew(scheme);
    } else {
      var before := Run(NewSystem(scheme), actions[..|actions| - 1]);
      SafetyInvariant(scheme, actions[..|actions| - 1]);
      WindowMakesHeadExact(before);
      BooksKept(before, actions[|actions| - 1]);
      WindowKept(before, actions[|actions| - 1]);
      SchemeStays(before, actions[|actions| - 1]);
    }
  }

  /**
   * In every run with at most 127 MSUs outstanding under PCR, or 128 under the Basic method,
   * the receiver has delivered a prefix of what was submitted, counted between the released
   * and the numbered MSUs, and the next unit's number is the expected one iff its index is.
   */
  lemma ExactlyOnceInOrder(scheme: Scheme, actions: seq<Action>)
    requires Windowed(NewSystem(scheme), actions, WindowOf(scheme))
    ensures var s := Run(NewSystem(scheme), actions);
            && s.delivered <= s.submitted
            && s.freed <= |s.delivered| <= s.Numbered()
            && HeadExact(s)
  {
    SafetyInvariant(scheme, actions);
    WindowMakesHeadExact(Run(NewSystem(scheme), actions));
  }

  // ---- PCR keeps to its window by itself ----

  lemma {:induction false} PcrRunWindowed(s: System, actions: seq<Action>, bound: nat)
    requires s.tx.scheme.Pcr? && PcrWindow(s.tx)
    requires s.tx.scheme.params.n1 <= bound || s.tx.scheme.params.n2 <= bound
    ensures Windowed(s, actions, bound)
    ensures Run(s, actions).tx.scheme == s.tx.scheme && PcrWindow(Run(s, actions).tx)
  {
    if actions != [] {
      var before := Run(s, actions[..|actions| - 1]);
      PcrRunWindowed(s, actions[..|actions| - 1], bound);
      match actions[|actions| - 1] {
        case Poll => PollPcrWindow(before.tx);
        case DeliverAck =>
          if before.backward != [] {
            AckPcrBounds(before.tx, 0, before.backward[0].bsn, before.backward[0].bib);
          }
        case _ =>
      }
    }
  }

  /** Under PCR neither end ever changes its indicator bit, whatever happens. */
  lemma {:induction false} PcrBitsNeverChange(params: PcrParams, actions: seq<Action>)
    ensures var s := Run(NewSystem(Pcr(params)), actions);
            && s.tx.scheme == s.rx.scheme == Pcr(params)
            && s.tx.fib && s.rx.bib && s.toggles == 0 && s.seen == 0
  {
    if actions != [] {
      PcrBitsNeverChange(params, actions[..|actions| - 1]);
    }
  }
}
