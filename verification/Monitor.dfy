/** The error-rate monitors: what one record does, and the objects that do it in place. */
module Monitor {
  import opened Basics

  datatype AermState = AermState(count: u32, threshold: u32) {
    predicate Tripped() {
      count >= threshold
    }
  }

  function SaturatingInc(n: u32): u32 {
    if n == U32_MAX then n else n + 1
  }

  function SaturatingDec(n: u32): u32 {
    if n == 0 then 0 else n - 1
  }

  function AermError(m: AermState): AermState {
    m.(count := SaturatingInc(m.count))
  }

  datatype SuermState = SuermState(
    count: u32,
    threshold: u32,
    interval: u32,
    sinceLeak: u32,
    failed: bool)

  function NewSuerm(threshold: u32, interval: u32): SuermState {
    SuermState(0, threshold, interval, 0, false)
  }

  function ResetSuerm(m: SuermState): SuermState {
    NewSuerm(m.threshold, m.interval)
  }

  /** Units per leak: an interval of zero leaks on every unit, as an interval of one does. */
  function Period(interval: u32): nat {
    if interval == 0 then 1 else interval
  }

  /** The counter of units since the last leak is reset before it can reach the u32 limit. */
  predicate SuermOk(m: SuermState) {
    m.sinceLeak < Period(m.interval)
  }

  function RecordSu(m: SuermState, inError: bool): (m': SuermState)
    ensures SuermOk(m')
  {
    var risen := if inError then SaturatingInc(m.count) else m.count;
    var leak := m.sinceLeak + 1 >= m.interval;
    var count := if leak then SaturatingDec(risen) else risen;
    m.(count := count,
       sinceLeak := if leak then 0 else m.sinceLeak + 1,
       failed := m.failed || count >= m.threshold)
  }

  class Aerm {
    var count: u32
    var threshold: u32

    ghost function State(): AermState
      reads this
    {
      AermState(count, threshold)
    }

    constructor (threshold: u32)
      ensures State() == AermState(0, threshold)
    {
      this.count := 0;
      this.threshold := threshold;
    }

    method Restart(threshold: u32)
      modifies this
      ensures State() == AermState(0, threshold)
    {
      this.count := 0;
      this.threshold := threshold;
    }

    method RecordError() returns (tripped: bool)
      modifies this
      ensures State() == AermError(old(State()))
      ensures tripped == State().Tripped()
    {
      count := SaturatingInc(count);
      tripped := count >= threshold;
    }
  }

  class Suerm {
    var count: u32
    const threshold: u32
    const interval: u32
    var sinceLeak: u32
    var failed: bool

    ghost function State(): SuermState
      reads this
    {
      SuermState(count, threshold, interval, sinceLeak, failed)
    }

    constructor (threshold: u32, interval: u32)
      ensures State() == NewSuerm(threshold, interval)
    {
      this.count := 0;
      this.threshold := threshold;
      this.interval := interval;
      this.sinceLeak := 0;
      this.failed := false;
    }

    method Reset()
      modifies this
      ensures State() == ResetSuerm(old(State()))
    {
      count := 0;
      sinceLeak := 0;
      failed := false;
    }

    method Record(inError: bool) returns (hasFailed: bool)
      requires SuermOk(State())
      modifies this
      ensures State() == RecordSu(old(State()), inError)
      ensures hasFailed == State().failed
    {
      sinceLeak := sinceLeak + 1;
      if inError {
        count := SaturatingInc(count);
      }
      if sinceLeak >= interval {
        sinceLeak := 0;
        count := SaturatingDec(count);
      }
      if count >= threshold {
        failed := true;
      }
      return failed;
    }
  }
}
