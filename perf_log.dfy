/** `LogPerf`: the per-iteration performance log of one optimisation run. */
module PerfLog {
  import opened Optional

  /** `loss` and `iter_times` are numpy arrays written slot by slot, so they
      are arrays here. The eight norm arrays and `ver` are allocated but never
      written anywhere in the optimiser, so they are values. An unset (NaN)
      slot is `None`. */
  class LogPerf {
    const nIter: nat
    var currIter: nat
    const loss: array<Option<real>>
    const l0V: seq<Option<real>>    // L0 norm, equal weights, eps as in the optimisation
    const l1V: seq<Option<real>>
    const l2V: seq<Option<real>>
    const lfV: seq<Option<real>>
    const l0All: seq<Option<real>>  // L0 norm, equal weights, eps = 0
    const l1All: seq<Option<real>>
    const l2All: seq<Option<real>>
    const lfAll: seq<Option<real>>
    const ver: seq<Option<real>>
    const iterTimes: array<real>
    var t0: Option<real>            // start of timing; NaN (None) until `startTiming`

    /** The written arrays have one slot per iteration, including the
        initialisation, and the counter never runs past the last slot plus one. */
    ghost predicate Valid()
      reads this
    {
      && currIter <= nIter + 1
      && loss.Length == nIter + 1
      && iterTimes.Length == nIter + 1
    }

    /** `np.zeros(n) * np.nan`: `n` unset slots. */
    static function Unwritten(n: nat): (s: seq<Option<real>>)
      ensures |s| == n && forall k :: 0 <= k < n ==> s[k] == None
    {
      seq(n, _ => None)
    }

    /** The norm arrays and `ver`: one unset slot per iteration each. */
    predicate MetricsUnset()
    {
      && l0V == Unwritten(nIter + 1) && l1V == Unwritten(nIter + 1)
      && l2V == Unwritten(nIter + 1) && lfV == Unwritten(nIter + 1)
      && l0All == Unwritten(nIter + 1) && l1All == Unwritten(nIter + 1)
      && l2All == Unwritten(nIter + 1) && lfAll == Unwritten(nIter + 1)
      && ver == Unwritten(nIter + 1)
    }

    /** `LogPerf(options)`: counter at 0, every metric slot unset, every
        iteration time 0, no start time yet. */
    constructor (nIter: nat)
      ensures Valid() && this.nIter == nIter && currIter == 0 && t0 == None
      ensures fresh(loss) && fresh(iterTimes)
      ensures forall k :: 0 <= k < loss.Length ==> loss[k] == None
      ensures MetricsUnset()
      ensures forall k :: 0 <= k < iterTimes.Length ==> iterTimes[k] == 0.0
    {
      this.nIter := nIter;
      currIter := 0;
      loss := new Option<real>[nIter + 1](_ => None);
      var unset := Unwritten(nIter + 1);
      l0V, l1V, l2V, lfV := unset, unset, unset, unset;
      l0All, l1All, l2All, lfAll := unset, unset, unset, unset;
      ver := unset;
      iterTimes := new real[nIter + 1](_ => 0.0);
      t0 := None;
    }

    /** `startTiming`: `now` is the clock reading `time.perf_counter()`. */
    method StartTiming(now: real)
      modifies this`t0
      ensures t0 == Some(now)
    {
      t0 := Some(now);
    }

    /** `recordIterTime`: the time elapsed since the start goes into the slot
        of the current iteration, and nowhere else. */
    method RecordIterTime(now: real)
      requires Valid() && currIter <= nIter && t0.Some?
      modifies iterTimes
      ensures iterTimes[currIter] == now - t0.value
      ensures forall k :: 0 <= k < iterTimes.Length && k != currIter ==> iterTimes[k] == old(iterTimes[k])
    {
      iterTimes[currIter] := now - t0.value;
    }
  }
}
