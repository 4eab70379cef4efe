/** Shared value types: optional values, results, machine-width numbers and the MTP3 payload. */
module Basics {

  datatype Option<+T> = None | Some(value: T)

  datatype Result<+T> = Ok(value: T) | Err(error: Mtp2Error)

  datatype Mtp2Error =
    | TooShort(expected: nat, actual: nat)
    | LengthIndicatorMismatch(li: nat, octets: nat)
    | InvalidStatusIndication(code: nat)
    | SequenceNumberOutOfRange(number: nat)
    | MsuTooLarge(size: nat)

  const U32_MAX := 0xFFFF_FFFF

  type octet = n: nat | n < 256
  type u32 = n: nat | n <= U32_MAX

  /** The payload of a message signal unit: service information octet and field. */
  datatype Msu = Msu(sio: octet, sif: seq<octet>) {
    function Octets(): nat {
      1 + |sif|
    }
  }

  /** The largest SIO + SIF a link carries. */
  const MAX_MSU_BODY := 273

  // ---- Remainders ----

  lemma Grows(period: nat, k: nat)
    requires k >= 1
    ensures period * k >= period
  {
  }

  lemma Multiple(period: nat, q: nat, r: nat)
    requires r < period
    ensures (period * q + r) % period == r
  {
    var n := period * q + r;
    var a, b := n / period, n % period;
    assert period * (q - a) == b - r;
    if q - a >= 1 {
      Grows(period, q - a);
    } else if a - q >= 1 {
      Grows(period, a - q);
    }
  }

  /** Counting up by one wraps at the period. */
  lemma NextRemainder(n: nat, period: nat)
    requires period > 0
    ensures (n + 1) % period == if n % period + 1 == period then 0 else n % period + 1
  {
    var q, r := n / period, n % period;
    assert n + 1 == period * q + (r + 1);
    if r + 1 == period {
      assert n + 1 == period * (q + 1);
      Multiple(period, q + 1, 0);
    } else {
      Multiple(period, q, r + 1);
    }
  }
}
