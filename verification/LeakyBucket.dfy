/** The leaky bucket as a property of the whole history of signal units since the reset. */
module LeakyBucket {
  import opened Basics
  import opened Monitor

  function Records(m: SuermState, history: seq<bool>): SuermState {
    if history == [] then m
    else RecordSu(Records(m, history[..|history| - 1]), history[|history| - 1])
  }

  /** Errors minus leak points among the units numbered lo + 1 to hi since the reset. */
  function Excess(history: seq<bool>, period: nat, lo: nat, hi: nat): int
    requires period > 0 && lo <= hi <= |history|
    decreases hi
  {
    if lo == hi then 0
    else
      Excess(history, period, lo, hi - 1)
      + (if history[hi - 1] then 1 else 0)
      - (if hi % period == 0 then 1 else 0)
  }

  /** `worst` is the largest excess over the windows that end now, the empty one included. */
  ghost predicate WorstSuffix(history: seq<bool>, period: nat, worst: int)
    requires period > 0
  {
    && (exists i :: 0 <= i <= |history| && Excess(history, period, i, |history|) == worst)
    && (forall i :: 0 <= i <= |history| ==> Excess(history, period, i, |history|) <= worst)
  }

  /** Some window that ended at one of the units so far exceeded its leaks by `limit`. */
  ghost predicate ErrorBurst(history: seq<bool>, period: nat, limit: int)
    requires period > 0
  {
    exists i, j :: 0 <= i <= j <= |history| && 0 < j && Excess(history, period, i, j) >= limit
  }

  lemma {:induction false} ExcessOfPrefix(history: seq<bool>, n: nat, period: nat, lo: nat, hi: nat)
    requires period > 0 && lo <= hi <= n <= |history|
    ensures Excess(history[..n], period, lo, hi) == Excess(history, period, lo, hi)
    decreases hi
  {
    if lo != hi {
      ExcessOfPrefix(history, n, period, lo, hi - 1);
    }
  }

  /** One more unit moves the worst suffix by its error and its leak, but not below zero. */
  lemma WorstSuffixStep(history: seq<bool>, period: nat, worst: int)
    requires period > 0 && history != []
    requires WorstSuffix(history[..|history| - 1], period, worst)
    ensures var n := |history|;
            var moved := worst + (if history[n - 1] then 1 else 0) - (if n % period == 0 then 1 else 0);
            WorstSuffix(history, period, if moved < 0 then 0 else moved)
  {
    var n, last := |history|, |history| - 1;
    var before := history[..last];
    forall i | 0 <= i <= last ensures Excess(before, period, i, last) == Excess(history, period, i, last) {
      ExcessOfPrefix(history, last, period, i, last);
    }
    var i :| 0 <= i <= last && Excess(before, period, i, last) == worst;
    assert Excess(history, period, n, n) == 0;
    assert Excess(before, period, last, last) == 0;
    var delta := (if history[last] then 1 else 0) - (if n % period == 0 then 1 else 0);
    assert Excess(history, period, i, n) == worst + delta;
    forall k | 0 <= k <= last ensures Excess(history, period, k, n) <= worst + delta {
      assert Excess(before, period, k, last) <= worst;
    }
  }

  lemma BurstStep(history: seq<bool>, period: nat, limit: int, worst: int)
    requires period > 0 && history != []
    requires WorstSuffix(history, period, worst)
    ensures ErrorBurst(history, period, limit)
       <==> ErrorBurst(history[..|history| - 1], period, limit) || worst >= limit
  {
    var n := |history|;
    var before := history[..n - 1];
    if ErrorBurst(before, period, limit) {
      var i, j :| 0 <= i <= j <= n - 1 && 0 < j && Excess(before, period, i, j) >= limit;
      ExcessOfPrefix(history, n - 1, period, i, j);
    }
    if ErrorBurst(history, period, limit) {
      var i, j :| 0 <= i <= j <= n && 0 < j && Excess(history, period, i, j) >= limit;
      if j < n {
        ExcessOfPrefix(history, n - 1, period, i, j);
      }
    }
  }

  /** The counter has not saturated: it is the worst suffix. Otherwise failure is latched. */
  ghost predicate BucketState(m: SuermState, history: seq<bool>, period: nat)
    requires period > 0
  {
    && m.sinceLeak == |history| % period
    && (m.failed <==> ErrorBurst(history, period, m.threshold))
    && (WorstSuffix(history, period, m.count) || ErrorBurst(history, period, U32_MAX))
  }

  lemma NoBurstBelow(history: seq<bool>, period: nat, worst: int)
    requires period > 0 && WorstSuffix(history, period, worst) && !ErrorBurst(history, period, U32_MAX)
    ensures worst < U32_MAX
  {
    var i :| 0 <= i <= |history| && Excess(history, period, i, |history|) == worst;
  }

  lemma BurstKept(history: seq<bool>, period: nat, limit: int)
    requires period > 0 && history != []
    requires ErrorBurst(history[..|history| - 1], period, limit)
    ensures ErrorBurst(history, period, limit)
  {
    var n := |history|;
    var i, j :| 0 <= i <= j <= n - 1 && 0 < j && Excess(history[..n - 1], period, i, j) >= limit;
    ExcessOfPrefix(history, n - 1, period, i, j);
  }

  lemma BurstWeaker(history: seq<bool>, period: nat, limit: int, lower: int)
    requires period > 0 && ErrorBurst(history, period, limit) && lower <= limit
    ensures ErrorBurst(history, period, lower)
  {
  }

  lemma BucketStep(m: SuermState, history: seq<bool>)
    requires SuermOk(m) && history != []
    requires BucketState(m, history[..|history| - 1], Period(m.interval))
    ensures BucketState(RecordSu(m, history[|history| - 1]), history, Period(m.interval))
  {
    var period, n := Period(m.interval), |history|;
    var before, m' := history[..n - 1], RecordSu(m, history[n - 1]);
    NextRemainder(n - 1, period);
    if ErrorBurst(before, period, U32_MAX) {
      BurstKept(history, period, U32_MAX);
      BurstKept(history, period, m.threshold);
      BurstWeaker(before, period, U32_MAX, m.threshold);
    } else {
      WorstSuffixStep(history, period, m.count);
      var moved := m.count + (if history[n - 1] then 1 else 0) - (if n % period == 0 then 1 else 0);
      var worst := if moved < 0 then 0 else moved;
      BurstStep(history, period, m.threshold, worst);
      BurstStep(history, period, U32_MAX, worst);
      NoBurstBelow(before, period, m.count);
    }
  }

  lemma {:induction false} BucketInvariant(threshold: u32, interval: u32, history: seq<bool>)
    ensures var m := Records(NewSuerm(threshold, interval), history);
            && m.threshold == threshold && m.interval == interval
            && BucketState(m, history, Period(interval))
  {
    var period := Period(interval);
    if history == [] {
      assert Excess(history, period, 0, 0) == 0;
    } else {
      var before := history[..|history| - 1];
      BucketInvariant(threshold, interval, before);
      var m := Records(NewSuerm(threshold, interval), before);
      BucketStep(m, history);
    }
  }

  lemma {:induction false} ExcessAtMostLength(history: seq<bool>, period: nat, lo: nat, hi: nat)
    requires period > 0 && lo <= hi <= |history|
    ensures Excess(history, period, lo, hi) <= hi - lo
    decreases hi
  {
    if lo != hi {
      ExcessAtMostLength(history, period, lo, hi - 1);
    }
  }

  /**
   * After any history since the reset: the monitor has failed iff some window of units so
   * far had T more errors than leaks, whatever saturated; and until some window has had
   * 2^32 - 1 more, the count is the largest such excess over the windows that end now.
   */
  lemma SuermClosedForm(threshold: u32, interval: u32, history: seq<bool>)
    ensures var m := Records(NewSuerm(threshold, interval), history);
            && (m.failed <==> ErrorBurst(history, Period(interval), threshold))
            && (!ErrorBurst(history, Period(interval), U32_MAX) ==>
                  WorstSuffix(history, Period(interval), m.count))
  {
    BucketInvariant(threshold, interval, history);
  }

  /** Fewer than 2^32 - 1 units cannot saturate the count. */
  lemma ShortHistoryIsExact(threshold: u32, interval: u32, history: seq<bool>)
    requires |history| < U32_MAX
    ensures WorstSuffix(history, Period(interval), Records(NewSuerm(threshold, interval), history).count)
  {
    SuermClosedForm(threshold, interval, history);
    if ErrorBurst(history, Period(interval), U32_MAX) {
      var i, j :| 0 <= i <= j <= |history| && 0 < j && Excess(history, Period(interval), i, j) >= U32_MAX;
      ExcessAtMostLength(history, Period(interval), i, j);
    }
  }
}
