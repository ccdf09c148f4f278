/** `Math.round(ms / 1000)` on an integer number of milliseconds, the only
    arithmetic the probes perform on time. */
module JsMath {

  const MillisPerSecond: int := 1000

  /** Math.round rounds half-way cases towards +infinity, so `s` is the
      rounding of `ms / 1000` exactly when `ms` lies in the half-open
      window [1000 s - 500, 1000 s + 500). */
  predicate IsRoundedSeconds(ms: int, s: int) {
    MillisPerSecond * s - MillisPerSecond / 2 <= ms < MillisPerSecond * s + MillisPerSecond / 2
  }

  /** `Math.round(ms / 1000)`. Dafny's division by a positive divisor rounds
      down, so adding half a second first gives round-half-up for every
      integer, negative ones included. */
  function RoundToSeconds(ms: int): (s: int)
    ensures IsRoundedSeconds(ms, s)
    ensures ms >= 0 ==> s >= 0
  {
    (ms + MillisPerSecond / 2) / MillisPerSecond
  }

  /** The rounding window determines the seconds value: at most one integer
      satisfies it, so the predicate is a complete reference definition. */
  lemma RoundedSecondsUnique(ms: int, s: int)
    requires IsRoundedSeconds(ms, s)
    ensures s == RoundToSeconds(ms)
  {
  }

  /** Rounding never reverses the order of two uptimes. */
  lemma RoundToSecondsMonotone(a: int, b: int)
    requires a <= b
    ensures RoundToSeconds(a) <= RoundToSeconds(b)
  {
  }
}
