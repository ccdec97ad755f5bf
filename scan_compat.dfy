/** The test whether a later scan may join the job group of an earlier one. */
module ScanCompat {
  import opened Intervals
  import opened VexModel

  /** Scans may start up to 1e-8 day before the previous scan stops (sorting jitter). */
  const StartTolerance: real := 0.00000001
  /** Two scans overlapping by 0.1 s or more are never merged. */
  const OverlapLimit: real := 0.1 / 86400.0

  function Fabs(x: real): real
  {
    if x < 0.0 then -x else x
  }

  /**
   * `a` is the earlier scan. Compatible exactly when `b` starts no earlier than
   * 1e-8 day before `a` stops and no later than `maxGap` after it, the scans'
   * overlap is below -0.1 s, single-scan jobs are off, and, when single-setup
   * jobs are on, the modes agree.
   */
  predicate AreScansCompatible(a: Scan, b: Scan, p: CorrParams, overlap: (Interval, Interval) -> real): (r: bool)
    ensures b.mjdStart < a.mjdStop - StartTolerance ==> !r
    ensures b.mjdStart > a.mjdStop + p.maxGap ==> !r
    ensures overlap(ScanInterval(a), ScanInterval(b)) >= -OverlapLimit ==> !r
    ensures p.singleScan ==> !r
    ensures p.singleSetup && a.modeDefName != b.modeDefName ==> !r
    ensures r <==>
      && a.mjdStop - StartTolerance <= b.mjdStart <= a.mjdStop + p.maxGap
      && overlap(ScanInterval(a), ScanInterval(b)) < -OverlapLimit
      && !p.singleScan
      && (p.singleSetup ==> a.modeDefName == b.modeDefName)
  {
    if (b.mjdStart < a.mjdStop && Fabs(b.mjdStart - a.mjdStop) > StartTolerance)
       || b.mjdStart > a.mjdStop + p.maxGap then
      false
    else if overlap(ScanInterval(a), ScanInterval(b)) >= -OverlapLimit then
      false
    else if p.singleScan then
      false
    else if p.singleSetup && a.modeDefName != b.modeDefName then
      false
    else
      true
  }
}
