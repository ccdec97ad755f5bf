/**
 * The data the vex2difx job splitter reads and writes: scans, timeline events,
 * media changes, job groups, jobs and the correlator parameters that steer the
 * split. The helpers the splitter calls but whose code lies outside it
 * (interval arithmetic, media assignment, baseband-file lookup, job expansion)
 * are gathered in `Collab` as function values.
 */
module VexModel {
  import opened Intervals

  /** The kinds of timeline events the splitter distinguishes. */
  datatype EventKind =
    | ScanStart | ScanStop
    | RecordStart | RecordStop
    | AntScanStart | AntScanStop
    | ClockBreak | LeapSecond
    | AntennaStart | AntennaStop
    | ManualBreak
    | JobStart | JobStop

  /** One timeline event: its time, kind and the scan, antenna or job it concerns. */
  datatype Event = Event(mjd: real, kind: EventKind, name: string)

  /** A scan of the schedule: time range, mode and correlator setup names. */
  datatype Scan = Scan(defName: string, mjdStart: real, mjdStop: real,
                       modeDefName: string, corrSetupName: string)

  function ScanInterval(s: Scan): Interval
  {
    Interval(s.mjdStart, s.mjdStop)
  }

  /** A recording gap of one antenna: from its RECORD_STOP to its next RECORD_START. */
  datatype MediaChange = MediaChange(antenna: string, mjdStart: real, mjdStop: real)

  /**
   * Scans correlated in one pass. `scans` holds each member scan's position in the
   * schedule (the schedule's scan names are unique, so a position names a scan).
   */
  datatype JobGroup = JobGroup(scans: seq<nat>, range: Interval, events: seq<Event>)

  /** A correlation job; `vsns` is the antenna to volume-serial map in key order. */
  datatype Job = Job(range: Interval, jobSeries: string, jobId: int, vsns: seq<(string, string)>)

  /** Per-antenna configured start and stop overrides (0 or less means unset). */
  datatype AntennaSetup = AntennaSetup(vexName: string, mjdStart: real, mjdStop: real)

  /** The correlator parameters the splitter reads; `window` is the configured mjd range. */
  datatype CorrParams = CorrParams(
    window: Interval,
    maxGap: real,
    singleScan: bool,
    singleSetup: bool,
    minSubarraySize: nat,
    minLength: real,
    maxLength: real,
    maxSize: real,
    jobSeries: string,
    startSeries: int,
    antennaSetups: seq<AntennaSetup>)

  /** Operations of collaborators whose code is not part of this model. */
  datatype Collab = Collab(
    overlap: (Interval, Interval) -> real,                // Interval::overlap
    containsAbsolutely: (Interval, real) -> bool,         // Interval::containsAbsolutely
    logicalOr: (Interval, Interval) -> Interval,          // Interval::logicalOr (grow to cover both)
    logicalAnd: (Interval, Interval) -> Interval,         // Interval::logicalAnd (shrink to the common part)
    nRecordedAnt: Scan -> nat,                            // VexScan::nAntennasWithRecordedData
    setupsCompatible: (string, string) -> bool,           // areCorrSetupsCompatible on the named setups
    genEvents: (Interval, seq<Event>) -> seq<Event>,      // VexJobGroup::genEvents
    nGap: (seq<MediaChange>, real) -> int,                // nGap of mediachange
    createJobs: (JobGroup, Interval, real, real) -> seq<Job>, // VexJobGroup::createJobs
    assignVSNs: (Job, seq<Event>) -> seq<(string, string)>, // VexJob::assignVSNs, given the timeline so far
    isFileSource: string -> bool,                         // antenna's data source is DataSourceFile
    hasBasebandFile: (string, Interval) -> bool,          // AntennaSetup::hasBasebandFile over the job's time range
    sortEvents: seq<Event> -> seq<Event>)                 // VexData::sortEvents
}
