/** Arithmetic on 7-bit sequence numbers. */
module Sequence {
  import opened Basics

  const SEQ_MODULUS := 128
  const SEQ_HALF := 64

  function SeqAdd(a: octet, b: octet): octet {
    (a + b) % SEQ_MODULUS
  }

  /**
   * The forward distance from b to a. The 16-bit subtraction of the program wraps modulo
   * 65536, a multiple of 128, so the Euclidean remainder is its value for every operand.
   */
  function SeqForward(a: octet, b: octet): octet {
    (a + SEQ_MODULUS - b) % SEQ_MODULUS
  }

  /** The sequence number of the unit with absolute index k. */
  function Fsn(k: nat): octet {
    k % SEQ_MODULUS
  }

  /** The sequence number of the unit before absolute index k: 127 when k is 0. */
  function FsnBefore(k: nat): octet {
    (k + SEQ_MODULUS - 1) % SEQ_MODULUS
  }

  lemma NextFsn(k: nat)
    ensures SeqAdd(FsnBefore(k), 1) == Fsn(k)
    ensures FsnBefore(k + 1) == Fsn(k)
  {
  }

  lemma ShiftByModulus(x: int, turns: int)
    ensures (x + SEQ_MODULUS * turns) % SEQ_MODULUS == x % SEQ_MODULUS
  {
  }

  /** Modular distance between the numbers of two absolute indices. */
  lemma ForwardOfIndices(k: nat, r: nat)
    ensures SeqForward(Fsn(k), FsnBefore(r)) == (k + 1 - r) % SEQ_MODULUS
    ensures SeqForward(FsnBefore(r), Fsn(k)) == (r - 1 - k) % SEQ_MODULUS
  {
    var x, y := Fsn(k), FsnBefore(r);
    var turns := k / SEQ_MODULUS - (r + SEQ_MODULUS - 1) / SEQ_MODULUS;
    assert k + 1 - r == x + SEQ_MODULUS - y + SEQ_MODULUS * turns;
    ShiftByModulus(x + SEQ_MODULUS - y, turns);
    assert r - 1 - k == y + SEQ_MODULUS - x + SEQ_MODULUS * (-turns - 2);
    ShiftByModulus(y + SEQ_MODULUS - x, -turns - 2);
  }

  /** The index 128 ahead of the expected one has the expected number. */
  lemma NumberRepeats(r: nat)
    ensures Fsn(r + 128) == Fsn(r) == FsnBefore(r + 1)
    ensures SeqForward(Fsn(r), FsnBefore(r)) == 1
  {
    ForwardOfIndices(r, r);
  }

  /** Within 127 of the expected index, only the expected index has the expected number. */
  lemma WindowMakesFsnExact(k: nat, r: nat)
    requires k <= r + 127 && r <= k + 127
    ensures SeqForward(Fsn(k), FsnBefore(r)) == 1 <==> k == r
  {
    ForwardOfIndices(k, r);
  }
}
