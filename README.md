# DiFX job splitting, input derivation, vexpeek and HOPS filesets in Dafny

This project models four pieces of the DiFX correlator software package and
proves properties about them.

* **The vex2difx job splitter** (`makejobs.cpp`). It reads a VEX schedule and
  the correlator parameters and cuts the observation into correlation jobs.
  - Scans that can be correlated together are collected into job groups.
  - Each group is then cut at media changes (the gap between an antenna's
    RECORD_STOP and its next RECORD_START), at clock breaks and at the other
    break events.
  - Each resulting piece longer than the minimum length is expanded into jobs.
  - Last, the jobs are numbered, their JOB_START and JOB_STOP events are added
    to the timeline, and file-based antennas without data in a job are dropped
    from that job.
  - Modules: `Intervals` and `Common` in `common.dfy`, plus `VexModel`,
    `ScanCompat`, `JobGroups`, `Breakpoints` and `MakeJobs`.
* **Values derived from a parsed `.input` file** (`difx_input.c`, module
  `DifxInput`). This covers:
  - the per-configuration frequency-id to IF map and its polarisations;
  - the reference frequency, quantisation bits and channel counts of the whole
    input;
  - the source table built from the scans;
  - the numbering of distinct frequency setups;
  - two lookups, of an antenna by name and of a source by job and time.
* **The vexpeek inspection tool** (`vexpeek.cpp`, module `VexPeek`). It covers:
  - command-line parsing and the check for a VEX file;
  - the disk-usage total and the per-antenna and per-module summaries;
  - the scan list;
  - the order in which the report's parts are written.
* **HOPS fileset discovery** (`fileset.c`, module `HopsFileset`). Given the
  path of a root file, it works out the scan directory, the scan name and the
  experiment number. It then lists the files of that scan which belong to the
  root.

Code outside these files becomes a parameter of the model.

* The interval operations, media assignment, baseband lookup and job expansion
  that the splitter calls are function values in a `Collab` record.
* Reading the VEX file and querying the module VSNs become inputs of vexpeek.
* The directory listing, together with each entry's parsed name, is an input
  of the fileset model.

State the source changes in place is modelled on classes:

* `MakeJobs.VexData` holds the event timeline;
* `DifxInput.DifxInput` holds the configurations, IFs and source table;
* `HopsFileset.Fileset` holds the fileset record.

The methods on these classes are proved against specification functions, and
lemmas state what those functions promise.

## Model

| member | source | states |
|---|---|---|
| ScanCompat.AreScansCompatible | applications/vex2difx/branches/multidatastream/src/makejobs.cpp:37-58 | B is compatible with A exactly when B starts no more than 1e-8 days before A stops and no later than A's stop plus maxGap, the two overlap by less than -0.1 s, singleScan is off, and under singleSetup the modes agree; each of the four rejections is also stated on its own |
| JobGroups.AbsorbKeepsOrder | applications/vex2difx/branches/multidatastream/src/makejobs.cpp:108-114 | appending an absorbed scan keeps the group in schedule order with every consecutive pair absorbable, and the group's range becomes the logicalOr of the old range with the new scan |
| JobGroups.AbsorbStep | applications/vex2difx/branches/multidatastream/src/makejobs.cpp:108-116 | taking an absorbable pending scan into the group and erasing it from the list keeps the inner loop's invariant (group, range and remaining list together account for the same scans) |
| JobGroups.Grow | applications/vex2difx/branches/multidatastream/src/makejobs.cpp:95-121 | the fold of the inner loop splits the pending list into the absorbed scans and the scans left pending: together they are as long as it, and both hold schedule scans only |
| JobGroups.GrowSplits | applications/vex2difx/branches/multidatastream/src/makejobs.cpp:95-121 | the absorbed scans and the scans left pending are, as a multiset, exactly the pending list |
| JobGroups.GrowSorted | applications/vex2difx/branches/multidatastream/src/makejobs.cpp:95-121 | the scans left pending stay in schedule order |
| JobGroups.GrowMaximal | applications/vex2difx/branches/multidatastream/src/makejobs.cpp:95-121 | every scan left pending failed the absorption test (overlap with the window, compatible setups, compatible scans) against the scan the group had absorbed last before it, so no pending scan that passes that test at its turn is left behind |
| JobGroups.GrowGroup | applications/vex2difx/branches/multidatastream/src/makejobs.cpp:86-121 | the group is the seed followed by exactly the scans the inner-loop fold absorbs, and the list left pending is exactly what the fold keeps; members stay in schedule order with each absorbable by its predecessor, and the range is the hull of the members |
| JobGroups.PartitionFacts | applications/vex2difx/branches/multidatastream/src/makejobs.cpp:69-122 | when the formed groups and the dropped scans together are the schedule's scans as a multiset, no scan is in two groups, every group member is a schedule scan, the counts add up to the number of scans, and every scan in no group was dropped |
| JobGroups.DropStep | applications/vex2difx/branches/multidatastream/src/makejobs.cpp:74-85 | dropping the front scan because fewer than minSubarraySize antennas recorded it keeps the outer loop's invariant |
| JobGroups.GroupStep | applications/vex2difx/branches/multidatastream/src/makejobs.cpp:86-121 | forming a group from the front scan keeps the outer loop's invariant |
| JobGroups.PassDone | applications/vex2difx/branches/multidatastream/src/makejobs.cpp:69-122 | once no scan is pending, the groups are disjoint, cover schedule scans only, and every scan outside them had fewer than minSubarraySize recording antennas; groups plus drops count every scan once |
| JobGroups.Pass | applications/vex2difx/branches/multidatastream/src/makejobs.cpp:69-122 | the fold of the outer loop: every group it forms is non-empty and holds schedule scans only |
| JobGroups.PassMembers | applications/vex2difx/branches/multidatastream/src/makejobs.cpp:69-122 | every scan the outer-loop fold puts in a group was pending when the pass started |
| JobGroups.PassMaximal | applications/vex2difx/branches/multidatastream/src/makejobs.cpp:69-122 | a scan that ends up in a later group failed the absorption test of every earlier group against the scan that group had absorbed last before it |
| JobGroups.FormGroups | applications/vex2difx/branches/multidatastream/src/makejobs.cpp:65-122 | the seed-and-absorb loop yields exactly the groups of the outer-loop fold, seeded in turn by the front of the list still pending, and nNoRecordScan is the fold's drop count; the groups are well formed and partition the recorded scans, and every scan left out had fewer than minSubarraySize recording antennas |
| JobGroups.ClipGroups | applications/vex2difx/branches/multidatastream/src/makejobs.cpp:129-134 | each group keeps its scans, gets its events from genEvents over its unclipped range, and then has its range narrowed to the configured window with logicalAnd |
| JobGroups.GenJobGroups | applications/vex2difx/branches/multidatastream/src/makejobs.cpp:63-135 | every group is well formed, its range is the hull of its scans clipped to the window and its events are those of its hull; groups are disjoint, a scan outside every group had too few recording antennas, and under singleScan each group holds one scan; the groups are exactly `Groups`, the outer-loop fold's scan lists with their clipped ranges and events, and nNoRecordScan is the fold's drop count |
| Breakpoints.PrescanRecorders | applications/vex2difx/branches/multidatastream/src/makejobs.cpp:154-159 | after the first pass, recordStop has a key for exactly the antennas with a RECORD_START event, and each such key holds -1 |
| Breakpoints.PrescanScanRange | applications/vex2difx/branches/multidatastream/src/makejobs.cpp:160-167 | with no SCAN_START the scan range stays (0,0); otherwise both ends are SCAN_START times and every SCAN_START lies between them |
| Breakpoints.PrescanEvents | applications/vex2difx/branches/multidatastream/src/makejobs.cpp:153-172 | the first loop computes the recordStop map and the scan range of the specification function PrescanOf |
| Breakpoints.TallyStep | applications/vex2difx/branches/multidatastream/src/makejobs.cpp:177-238 | one iteration of the second loop updates the candidate times, the recording state and the clock-break counts as the three per-event functions say |
| Breakpoints.TallyEvents | applications/vex2difx/branches/multidatastream/src/makejobs.cpp:176-238 | the second loop computes the tally of the specification function TallyOf |
| Breakpoints.ClocksSum | applications/vex2difx/branches/multidatastream/src/makejobs.cpp:226-237 | nClockBreaks equals the sum of the per-time clock-break counts, and no count is negative |
| Breakpoints.ClocksTimes | applications/vex2difx/branches/multidatastream/src/makejobs.cpp:226-237 | a time has a positive clock-break count exactly when a CLOCK_BREAK, LEAP_SECOND, ANTENNA_START, ANTENNA_STOP or MANUAL_BREAK event lies strictly inside the group at that time |
| Breakpoints.RecordingChanges | applications/vex2difx/branches/multidatastream/src/makejobs.cpp:198-217 | every media change runs from a RECORD_STOP of its antenna to a RECORD_START of the same antenna; its start is positive, both ends lie strictly inside the group and its end lies strictly inside the scan range; every positive recordStop entry is the time of a RECORD_STOP of that antenna |
| Breakpoints.TimelineOrder | applications/vex2difx/branches/multidatastream/src/makejobs.cpp:179-196 | candidate break times come out strictly increasing and no later than the last time seen, and mjdLast stays -1 only when there are no events |
| Breakpoints.TimelineInside | applications/vex2difx/branches/multidatastream/src/makejobs.cpp:183-194 | every candidate break time is strictly inside the group and is the time of some event |
| Breakpoints.TimelineComplete | applications/vex2difx/branches/multidatastream/src/makejobs.cpp:179-196 | with events in time order, mjdLast ends as the last event's time and every event time strictly inside the group becomes a candidate |
| Breakpoints.BestIsFirstMax | applications/vex2difx/branches/multidatastream/src/makejobs.cpp:272-281 | the chosen time has the highest score, and the first such time wins ties; when no score exceeds -1 the previous mjdBest is kept |
| Breakpoints.PickBest | applications/vex2difx/branches/multidatastream/src/makejobs.cpp:270-281 | the scoring loop returns the time that BestOf specifies |
| Breakpoints.UncoveredMembers | applications/vex2difx/branches/multidatastream/src/makejobs.cpp:287-298 | after removal a change remains exactly when it was present and does not span the new break time |
| Breakpoints.RemoveCovering | applications/vex2difx/branches/multidatastream/src/makejobs.cpp:288-298 | the erase loop leaves exactly the changes that do not cover the break, in their old order |
| Breakpoints.PlaceBreaks | applications/vex2difx/branches/multidatastream/src/makejobs.cpp:241-299 | the break-placement loop ends with the result Settle specifies: the placed breaks, or an abort when it fails to converge |
| Breakpoints.SettleTracks | applications/vex2difx/branches/multidatastream/src/makejobs.cpp:241-299 | a converged placement leaves no media change and no clock break pending, and adds at most one break per round |
| Breakpoints.SettledPlacesEveryBreak | applications/vex2difx/branches/multidatastream/src/makejobs.cpp:241-299 | a converged placement puts a break at every time with a clock break, puts a break inside every media change, and keeps the breaks placed before |
| Breakpoints.StuckAborts | applications/vex2difx/branches/multidatastream/src/makejobs.cpp:246-268 | with no candidate times and media changes pending, none of which holds the previous best time, every round breaks at that same time again, so the loop reaches the events + 3 guard and aborts |
| Breakpoints.SortAscendingCorrect | applications/vex2difx/branches/multidatastream/src/makejobs.cpp:300 | the sort yields an ascending permutation of the breaks |
| Breakpoints.CutsTile | applications/vex2difx/branches/multidatastream/src/makejobs.cpp:305-319 | piece i runs from the previous break, or from the group start for the first piece, to break i |
| Breakpoints.CutsSpan | applications/vex2difx/branches/multidatastream/src/makejobs.cpp:305-319 | the pieces' durations add up to the span from the group start to the last break |
| Breakpoints.JobsFromLongPieces | applications/vex2difx/branches/multidatastream/src/makejobs.cpp:309-317 | every job comes from createJobs on a piece longer than minLength |
| Breakpoints.FormJobs | applications/vex2difx/branches/multidatastream/src/makejobs.cpp:305-319 | the job-forming loop yields the jobs of the pieces cut at the breaks |
| Breakpoints.GenJobs | applications/vex2difx/branches/multidatastream/src/makejobs.cpp:137-320 | genJobs on one group gives the outcome GenJobsOf specifies |
| Breakpoints.GenJobsBoundaries | applications/vex2difx/branches/multidatastream/src/makejobs.cpp:240-319 | on convergence the jobs are those of the pieces cut at the sorted breaks plus the group end; there are at most events + 3 breaks; every break event strictly inside the group and every media change is met by a break |
| Breakpoints.NothingToBreak | applications/vex2difx/branches/multidatastream/src/makejobs.cpp:241-319 | a group with no media change and no clock break becomes the jobs of its whole range |
| MakeJobs.VexData.AddEvent | applications/vex2difx/branches/multidatastream/src/makejobs.cpp:333 | addEvent appends exactly the new event to the timeline |
| MakeJobs.VexData.SortEvents | applications/vex2difx/branches/multidatastream/src/makejobs.cpp:340 | sortEvents replaces the timeline with its sorted form |
| MakeJobs.AntennaEventsExact | applications/vex2difx/branches/multidatastream/src/makejobs.cpp:328-339 | the antenna events added are exactly an ANTENNA_START at each positive per-antenna start and an ANTENNA_STOP at each positive stop |
| MakeJobs.AddAntennaEvents | applications/vex2difx/branches/multidatastream/src/makejobs.cpp:328-339 | the loop appends exactly those antenna events to the timeline |
| MakeJobs.CollectAbort | applications/vex2difx/branches/multidatastream/src/makejobs.cpp:354-357 | gathering jobs aborts exactly when some group aborts; otherwise every gathered job comes from a group that converged |
| MakeJobs.GroupsJobsAbort | applications/vex2difx/branches/multidatastream/src/makejobs.cpp:354-357 | the same, stated over the job groups: the run aborts exactly when genJobs aborts on some group |
| MakeJobs.GenAllJobs | applications/vex2difx/branches/multidatastream/src/makejobs.cpp:354-357 | the loop over groups appends each group's jobs, in group order, or aborts |
| MakeJobs.SweepConserves | applications/vex2difx/branches/multidatastream/src/makejobs.cpp:377-402 | the VSN sweep splits the job's entries into kept and removed ones without losing or inventing any |
| MakeJobs.SweepDrops | applications/vex2difx/branches/multidatastream/src/makejobs.cpp:379-386 | every removed entry is a "None" VSN of a file-based antenna without a baseband file in the job's range |
| MakeJobs.SweepKeeps | applications/vex2difx/branches/multidatastream/src/makejobs.cpp:377-402 | every kept entry after the first is not removable, and with nothing removed the map is unchanged and no entry was removable |
| MakeJobs.SweepSkipsNewFirst | applications/vex2difx/branches/multidatastream/src/makejobs.cpp:391-398 | with two entries both without data, only the first is removed: after an erase the loop restarts at begin() and then steps past it, so the entry that became first is never examined |
| MakeJobs.RemoveAntennasWithoutData | applications/vex2difx/branches/multidatastream/src/makejobs.cpp:377-402 | the erase loop leaves the sweep's kept entries and appends one (jobId, antenna) pair per removed entry |
| MakeJobs.FinalJob | applications/vex2difx/branches/multidatastream/src/makejobs.cpp:363-408 | a finalised job keeps its range, gets its jobId, keeps the swept VSNs, and has series "-" exactly when fewer than minSubarraySize antennas remain or the series is "-" anyway |
| MakeJobs.FinalizeTimeline | applications/vex2difx/branches/multidatastream/src/makejobs.cpp:371-372 | finalising job k appends its JOB_START and JOB_STOP events named series_id |
| MakeJobs.FinalizeJobs | applications/vex2difx/branches/multidatastream/src/makejobs.cpp:360-410 | the k-th finalised job has jobId startSeries + k, its own range, and the VSNs swept on the timeline as it stood after the jobs before it |
| MakeJobs.FinalizeRemovals | applications/vex2difx/branches/multidatastream/src/makejobs.cpp:377-402 | every removal record names a job and an antenna that the sweep removed from that job |
| MakeJobs.FinalizeJob | applications/vex2difx/branches/multidatastream/src/makejobs.cpp:361-409 | one round stamps the timeline, finalises the job and records its removals, as the specification functions say |
| MakeJobs.FinalizeAll | applications/vex2difx/branches/multidatastream/src/makejobs.cpp:359-410 | the finalising loop yields the finalised jobs and the stamped timeline, and appends every removal record, in job order, to the caller's removal list |
| MakeJobs.FinalizeRound | applications/vex2difx/branches/multidatastream/src/makejobs.cpp:361-409 | the finalised jobs, the timeline and the removals over k + 1 jobs extend those over k jobs by job k's round |
| MakeJobs.MakeJobs | applications/vex2difx/branches/multidatastream/src/makejobs.cpp:322-412 | the groups are exactly those the greedy seed-and-absorb pass `Groups` forms on the sorted timeline, well formed and disjoint, skipping only scans with too few recording antennas; the result aborts exactly when genJobs aborts on a group, and otherwise holds the finalised jobs and the caller's removedAntennas followed by this call's removals, with the timeline sorted after stamping |
| DifxInput.AddToList | common/difxio/trunk/difxio/difx_input.c:262-285 | a negative count is returned unchanged; otherwise the list's first m slots become the old first n with x appended unless already present, and no slot other than slot n changes |
| DifxInput.AddNewKeepsDistinct | common/difxio/trunk/difxio/difx_input.c:275-284 | adding to a list of distinct ids keeps it distinct, keeps the old entries as a prefix, and its members are the old ones plus x |
| DifxInput.GatherFrom | common/difxio/trunk/difxio/difx_input.c:312-328 | every collected value comes from a datastream the configuration names with a non-negative id |
| DifxInput.GatherHas | common/difxio/trunk/difxio/difx_input.c:312-328 | every value of a named datastream is collected |
| DifxInput.NotePols | common/difxio/trunk/difxio/difx_input.c:350-371 | scanning a datastream's record-channel polarisations succeeds exactly when all of them seen so far are R, L, X or Y, and then the four flags say exactly which of those letters occurred |
| DifxInput.ConsensusAgree | common/difxio/trunk/difxio/difx_input.c:1038-1046 | when every value is the same v, the running agreement ends at v |
| DifxInput.ConsensusDisagree | common/difxio/trunk/difxio/difx_input.c:1038-1046 | two different positive values anywhere in the list make the running agreement -1 |
| DifxInput.ConsensusSticks | common/difxio/trunk/difxio/difx_input.c:1042-1045 | once the running agreement is -1 it stays -1 |
| DifxInput.ConsensusTracks | common/difxio/trunk/difxio/difx_input.c:1038-1046 | after a positive value has been seen, the running agreement is that value or -1 |
| DifxInput.NChanAgree | common/difxio/trunk/difxio/difx_input.c:1054-1061 | when all configurations have the same nChan v, the consensus is v |
| DifxInput.NChanDisagree | common/difxio/trunk/difxio/difx_input.c:1054-1061 | two configurations with different positive nChan make the consensus -1 |
| DifxInput.QuantBitsAgree | common/difxio/trunk/difxio/difx_input.c:1028-1052 | when every named datastream has quantBits v, the configuration gets v |
| DifxInput.QuantBitsDisagree | common/difxio/trunk/difxio/difx_input.c:1028-1052 | two named datastreams with different positive quantBits give the configuration 0 |
| DifxInput.RefFreqLowest | common/difxio/trunk/difxio/difx_input.c:1014-1022 | with positive frequencies, the reference frequency is one of them and no greater than any of them |
| DifxInput.ClampOutChan | common/difxio/trunk/difxio/difx_input.c:1078-1082 | the output channel count never exceeds (nChan - startChan) / specAvg, truncating toward zero; a count in (0, that bound] is kept, and any other becomes the bound |
| DifxInput.ClampIdempotent | common/difxio/trunk/difxio/difx_input.c:1078-1082 | clamping a clamped count changes nothing |
| DifxInput.MaxOr0 | common/difxio/trunk/difxio/difx_input.c:293-327 | maxFreqId is 0 or one of the collected ids, and no collected id exceeds it |
| DifxInput.IFList | common/difxio/trunk/difxio/difx_input.c:312-328 | the IF list holds each collected frequency id exactly once, and each is a valid index in the frequency table no larger than maxFreqId |
| DifxInput.SelectFacts | common/difxio/trunk/difxio/difx_input.c:383-400 | the polarisation letters are picked without repetition, and exactly those present among the known letters are picked |
| DifxInput.PolOrderUnfold | common/difxio/trunk/difxio/difx_input.c:383-400 | the configuration's polarisations come out in the fixed order R, L, X, Y, each only when present |
| DifxInput.PolCount | common/difxio/trunk/difxio/difx_input.c:373-376 | nPol, the count of raised flags, equals the number of letters in that order |
| DifxInput.FreqMapInverts | common/difxio/trunk/difxio/difx_input.c:335-336 | the map's last slot is -1, the map sends the i-th IF's frequency id back to i, and any other id up to maxFreqId maps to 0 |
| DifxInput.IFRows | common/difxio/trunk/difxio/difx_input.c:402-413 | IF i carries the frequency, bandwidth and sideband of its frequency id, plus the configuration's nPol and polarisation pair |
| DifxInput.MapIFsFails | common/difxio/trunk/difxio/difx_input.c:342-381 | an unknown polarisation letter, or a count of distinct polarisations other than 1 or 2, returns -1 once nIF is set and a zero map ending in -1 is in place; nPol, the polarisations and the IF rows keep their old values |
| DifxInput.MapIFsSucceeds | common/difxio/trunk/difxio/difx_input.c:304-417 | otherwise the result is 0, with the IF count, the map, nPol, the ordered polarisation pair (' ' second when there is one) and the IF rows set |
| DifxInput.MapIFsKeeps | common/difxio/trunk/difxio/difx_input.c:287-418 | the map leaves the datastream ids, nChan, quantBits and freqId of the configuration alone |
| DifxInput.MapIFsRoundTrip | common/difxio/trunk/difxio/difx_input.c:312-413 | the IF count is the number of distinct collected ids and the map ends in -1; on success every collected id maps to an IF holding that frequency's value, bandwidth and sideband, and IF i maps back to i |
| DifxInput.MapIFsStatus | common/difxio/trunk/difxio/difx_input.c:342-381 | the map fails exactly when a polarisation letter is unknown or the number of distinct polarisations is neither 1 nor 2 |
| DifxInput.MapIFsPolarisations | common/difxio/trunk/difxio/difx_input.c:373-413 | on success nPol is the number of distinct polarisations; the pair holds exactly those letters, in R, L, X, Y order, with ' ' second for one; every IF carries that nPol and pair |
| DifxInput.PolOrderMembers | common/difxio/trunk/difxio/difx_input.c:383-400 | the ordered letters are distinct, and are the known letters present |
| DifxInput.PolOrderSorted | common/difxio/trunk/difxio/difx_input.c:383-400 | with two letters, the first precedes the second in R, L, X, Y order |
| DifxInput.PolOrderCount | common/difxio/trunk/difxio/difx_input.c:373-381 | the number of ordered letters is the number of distinct polarisations |
| DifxInput.DeriveConfigKeeps | common/difxio/trunk/difxio/difx_input.c:1024-1068 | deriving a configuration keeps its datastreams, nChan and freqId, and sets a non-negative quantBits equal to the datastreams' consensus, with disagreement becoming 0 |
| DifxInput.SourceKeys | common/difxio/trunk/difxio/difx_input.c:1910-1916 | scan k's source key is made from its name, calCode, ra, dec, qual and configId |
| DifxInput.SourceTableFacts | common/difxio/trunk/difxio/difx_input.c:1903-1936 | the source table lists each distinct key once and no others, has at most one entry per scan, holds each scan's key at its sourceId, and gives two scans the same sourceId exactly when their keys are equal |
| DifxInput.SameFQ | common/difxio/trunk/difxio/difx_input.c:2114-2151 | the comparison says yes exactly when the two configurations have the same number of IFs and agree IF by IF on frequency, bandwidth, sideband, nPol and the polarisations |
| DifxInput.SameFQEquivalence | common/difxio/trunk/difxio/difx_input.c:2114-2151 | the sameness is reflexive, symmetric and transitive |
| DifxInput.FirstSameFQ | common/difxio/trunk/difxio/difx_input.c:2179-2186 | the inner search stops at the first earlier configuration with the same frequency setup, or runs to c |
| DifxInput.FreqIdTable | common/difxio/trunk/difxio/difx_input.c:2153-2195 | every configuration gets a freqId in [0, count) |
| DifxInput.FreqIdOnto | common/difxio/trunk/difxio/difx_input.c:2168-2192 | every id below the count is used by some configuration |
| DifxInput.FreqIdClasses | common/difxio/trunk/difxio/difx_input.c:2168-2192 | two configurations share a freqId exactly when their frequency setups are the same |
| DifxInput.FindSource | common/difxio/trunk/difxio/difx_input.c:1908-1920 | the search returns the first table index holding the key, or the table length when none does |
| DifxInput.MatchingFreqId | common/difxio/trunk/difxio/difx_input.c:2178-2186 | the inner loop yields the freqId of the first earlier configuration with the same setup, or -1 when there is none |
| DifxInput.DifxInput.MakeFreqId2IFmap | common/difxio/trunk/difxio/difx_input.c:287-418 | a negative configId returns 0 and changes nothing; otherwise only that configuration changes, to exactly the map MapIFs specifies |
| DifxInput.DifxInput.SetPols | common/difxio/trunk/difxio/difx_input.c:373-400 | nPol is the number of raised polarisation flags, and the order lists their letters in R, L, X, Y order |
| DifxInput.DifxInput.CollectFreqIds | common/difxio/trunk/difxio/difx_input.c:307-328 | the distinct ids collected fill the first nIF slots of an array as long as the frequency table, and maxFreqId is their maximum or 0 |
| DifxInput.DifxInput.AddFreqIds | common/difxio/trunk/difxio/difx_input.c:320-327 | one datastream's ids are added to the list in order without repeats, and the maximum is updated |
| DifxInput.DifxInput.CollectPols | common/difxio/trunk/difxio/difx_input.c:342-372 | the scan of polarisations reports whether all letters are known; if so, the four flags say which letters occur |
| DifxInput.DifxInput.FillIFs | common/difxio/trunk/difxio/difx_input.c:402-413 | the map array becomes the inverse of the IF list, and the IF rows are those IFRows specifies |
| DifxInput.DifxInput.QuantBitsScan | common/difxio/trunk/difxio/difx_input.c:1028-1047 | the per-configuration datastream loop computes the running agreement of the named datastreams' quantBits |
| DifxInput.DifxInput.DeriveDifxInputValues | common/difxio/trunk/difxio/difx_input.c:998-1088 | with no configuration nothing changes and the call fails; otherwise the reference frequency is set, every configuration is derived, and the call succeeds exactly when all nChan agree, in which case nOutChan is clamped, nFFT is 2 nChan and nInChan is nChan |
| DifxInput.DifxInput.SetQuantBits | common/difxio/trunk/difxio/difx_input.c:1024-1062 | every configuration gets its consensus quantBits, and the configurations' nChan consensus is returned |
| DifxInput.DifxInput.SetRefFreq | common/difxio/trunk/difxio/difx_input.c:1014-1022 | the reference frequency becomes the value RefFreqOf gives for the frequency table |
| DifxInput.DifxInput.MapAllConfigs | common/difxio/trunk/difxio/difx_input.c:1064-1068 | every configuration is replaced by its frequency-id map, whatever its status |
| DifxInput.DifxInput.DeriveSourceTable | common/difxio/trunk/difxio/difx_input.c:1885-1936 | with no scan the call fails and nothing changes; otherwise the table holds the distinct scan keys in first-seen order and each scan's sourceId indexes its key |
| DifxInput.DifxInput.CalcFreqIds | common/difxio/trunk/difxio/difx_input.c:2153-2195 | every configuration's freqId is its class number in FreqIdTable; the count is returned, except that fewer than two configurations return 0 |
| DifxInput.DifxInput.GetSourceIdByJobId | common/difxio/trunk/difxio/difx_input.c:2294-2317 | a time no later than the job's start gives -1; otherwise the sourceId of the first scan of that job ending after the time, or -1 when there is none |
| DifxInput.DifxInput.GetAntennaId | common/difxio/trunk/difxio/difx_input.c:2361-2379 | the index of the first antenna with that name, or -1 when none has it |
| DifxInput.UnknownPol | common/difxio/trunk/difxio/difx_input.c:366-369 | once an unknown polarisation letter is seen, the polarisations are not all known, however many follow |
| VexPeek.HullsDomain | applications/vex2difx/branches/proto-2.6.3/src/vexpeek.cpp:117-152 | the summary has a row for exactly the stations appearing in some scan |
| VexPeek.HullsCover | applications/vex2difx/branches/proto-2.6.3/src/vexpeek.cpp:121-151 | each station's span starts no later and ends no earlier than every one of its scan intervals |
| VexPeek.HullsAttained | applications/vex2difx/branches/proto-2.6.3/src/vexpeek.cpp:121-151 | each end of a station's span is an end of one of its scan intervals |
| VexPeek.FormatsFromFirst | applications/vex2difx/branches/proto-2.6.3/src/vexpeek.cpp:125-139 | a station has a format exactly when its first scan's mode has a setup for it, and that setup's format is the one recorded |
| VexPeek.DiskGBAppend | applications/vex2difx/branches/proto-2.6.3/src/vexpeek.cpp:71-110 | disk usage over two runs of scans is the sum of the usage over each |
| VexPeek.SkippedScan | applications/vex2difx/branches/proto-2.6.3/src/vexpeek.cpp:77-99 | a scan lacking the antenna, its mode or the antenna's setup adds nothing to the usage |
| VexPeek.DiskGBNonNegative | applications/vex2difx/branches/proto-2.6.3/src/vexpeek.cpp:71-110 | with non-negative rates and intervals the usage is non-negative |
| VexPeek.TotalDiskUsageGB | applications/vex2difx/branches/proto-2.6.3/src/vexpeek.cpp:71-110 | the loop sums rate times seconds over 8000 across the counted scans, and the rate out-parameter is the last counted scan's rate, or the caller's value when none counts |
| VexPeek.Trunc | applications/vex2difx/branches/proto-2.6.3/src/vexpeek.cpp:171 | the (int) cast of the rate truncates toward zero: the result lies within 1 of the value on the zero side |
| VexPeek.VisitsMembers | applications/vex2difx/branches/proto-2.6.3/src/vexpeek.cpp:117-121 | the station visits walked are exactly the (station, interval, mode) triples of the scans |
| VexPeek.AntennaRowsSpan | applications/vex2difx/branches/proto-2.6.3/src/vexpeek.cpp:112-178 | the summary rows are for exactly the stations that occur; each row's span contains every interval of its station and starts at one of them |
| VexPeek.AntennaSummary | applications/vex2difx/branches/proto-2.6.3/src/vexpeek.cpp:112-178 | the two loops produce exactly the rows AntennaRows specifies, with the format and the usage columns as the two flags select |
| VexPeek.SummaryLines | applications/vex2difx/branches/proto-2.6.3/src/vexpeek.cpp:158-175 | the output loop gives every station with a span its row, built from its span, its format and its disk usage |
| VexPeek.ModuleSummary | applications/vex2difx/branches/proto-2.6.3/src/vexpeek.cpp:180-226 | the module listing uses the same station spans as the summary and lists each station's VSN records |
| VexPeek.ModulesMatchSummary | applications/vex2difx/branches/proto-2.6.3/src/vexpeek.cpp:184-208 | the module listing covers the same stations as the antenna summary, with the same spans |
| VexPeek.ColumnsFacts | applications/vex2difx/branches/proto-2.6.3/src/vexpeek.cpp:238-246 | the station columns of the scan list are distinct and are exactly the stations appearing in some scan |
| VexPeek.ColumnsGrow | applications/vex2difx/branches/proto-2.6.3/src/vexpeek.cpp:242-245 | the station columns only grow from scan to scan, so a station keeps its column |
| VexPeek.StationCells | applications/vex2difx/branches/proto-2.6.3/src/vexpeek.cpp:247-255 | cell j shows column j's station when the current scan has it, and "--" otherwise |
| VexPeek.ScanList | applications/vex2difx/branches/proto-2.6.3/src/vexpeek.cpp:228-258 | the loop yields one row per scan, in order, with the columns known up to that scan, as ScanRows specifies |
| VexPeek.LineRead | applications/vex2difx/branches/proto-2.6.3/src/vexpeek.cpp:316 | getline delivers a prefix of the content without a newline that fits the buffer |
| VexPeek.LineReadStops | applications/vex2difx/branches/proto-2.6.3/src/vexpeek.cpp:316 | a short first line is read whole |
| VexPeek.LineReadFull | applications/vex2difx/branches/proto-2.6.3/src/vexpeek.cpp:316 | a first line too long for the buffer is cut at the buffer size |
| VexPeek.TestVex | applications/vex2difx/branches/proto-2.6.3/src/vexpeek.cpp:302-339 | an unopenable file gives -1, end of file on the first read gives -2, and 0 means the first line starts with "VEX" |
| VexPeek.TestVexFirstLine | applications/vex2difx/branches/proto-2.6.3/src/vexpeek.cpp:316-338 | a file whose first line is short gives -3 when the line starts with "$EXPER ", otherwise 0 when it starts with "VEX", otherwise -4 |
| VexPeek.TestVexLongLine | applications/vex2difx/branches/proto-2.6.3/src/vexpeek.cpp:316-338 | a file whose first line fills the 128-byte buffer is judged by its first 127 characters in the same way |
| VexPeek.Classify | applications/vex2difx/branches/proto-2.6.3/src/vexpeek.cpp:360-454 | an argument is taken as a file name exactly when it is not an option |
| VexPeek.KindsAt | applications/vex2difx/branches/proto-2.6.3/src/vexpeek.cpp:358-455 | the i-th argument is classified on its own |
| VexPeek.ParseFileName | applications/vex2difx/branches/proto-2.6.3/src/vexpeek.cpp:445-454 | when parsing reaches the end, there is no file name exactly when no argument was a file name, and otherwise the file name is one of the arguments |
| VexPeek.ParseAccepted | applications/vex2difx/branches/proto-2.6.3/src/vexpeek.cpp:358-455 | parsing reaches the end exactly when no help request, unknown option or second file name occurs |
| VexPeek.ParseSummary | applications/vex2difx/branches/proto-2.6.3/src/vexpeek.cpp:387-410 | the summary stays on exactly when none of -b, -s, -m and -c (or their long forms) was given |
| VexPeek.ParseCounts | applications/vex2difx/branches/proto-2.6.3/src/vexpeek.cpp:387-438 | the band, scan, module and coordinate counters count the arguments asking for each listing, -a included |
| VexPeek.ParseStopped | applications/vex2difx/branches/proto-2.6.3/src/vexpeek.cpp:358-455 | once parsing has stopped, later arguments change nothing |
| VexPeek.ParseFirstRejected | applications/vex2difx/branches/proto-2.6.3/src/vexpeek.cpp:360-450 | the first rejected argument decides the outcome: help, an unknown option naming that argument, or the one-file error |
| VexPeek.ParseOptions | applications/vex2difx/branches/proto-2.6.3/src/vexpeek.cpp:358-455 | the argument loop computes the outcome ParseArgs specifies |
| VexPeek.CountAskingPositive | applications/vex2difx/branches/proto-2.6.3/src/vexpeek.cpp:387-438 | a listing's counter is positive exactly when some argument asks for that listing |
| VexPeek.MainExitCode | applications/vex2difx/branches/proto-2.6.3/src/vexpeek.cpp:341-516 | the exit code is success or failure, and success exactly when help is asked for, or parsing succeeds with a file name whose check gives 0; on success the output is the report |
| VexPeek.ParseHelp | applications/vex2difx/branches/proto-2.6.3/src/vexpeek.cpp:360-366 | parsing ends in help exactly when some -h or --help comes after arguments all accepted |
| VexPeek.RejectedKind | applications/vex2difx/branches/proto-2.6.3/src/vexpeek.cpp:358-455 | the argument that stops parsing is a help request, an unknown option or a second file name |
| VexPeek.FirstRejected | applications/vex2difx/branches/proto-2.6.3/src/vexpeek.cpp:358-455 | an argument list that is not wholly accepted has a first rejected argument, all arguments before which are accepted |
| VexPeek.ArrangeMembers | applications/vex2difx/branches/proto-2.6.3/src/vexpeek.cpp:474-511 | the report holds exactly the parts of the verbose dump, the header, the summary, the bands, the scans, the modules and the coordinates |
| VexPeek.ReportSummary | applications/vex2difx/branches/proto-2.6.3/src/vexpeek.cpp:480-495 | the station summary is written exactly when the summary flag is on, and the experiment name alone exactly when, in addition, neither modules nor timing was asked for |
| VexPeek.ReportListings | applications/vex2difx/branches/proto-2.6.3/src/vexpeek.cpp:496-511 | the band, scan, module and coordinate listings are each written exactly when their counter is positive |
| VexPeek.Run | applications/vex2difx/branches/proto-2.6.3/src/vexpeek.cpp:341-516 | the whole program returns the exit code and output MainResult specifies |
| VexPeek.PrintReport | applications/vex2difx/branches/proto-2.6.3/src/vexpeek.cpp:472-511 | the writing sequence produces the report Report specifies |
| VexPeek.PrintSummary | applications/vex2difx/branches/proto-2.6.3/src/vexpeek.cpp:488-495 | the summary step writes the part SummaryPart specifies from AntennaRows |
| VexPeek.PrintScanList | applications/vex2difx/branches/proto-2.6.3/src/vexpeek.cpp:500-503 | the scan step writes the part ScanPart specifies from ScanRows |
| VexPeek.PrintModules | applications/vex2difx/branches/proto-2.6.3/src/vexpeek.cpp:504-507 | the module step writes the part ModulePart specifies from ModuleRows |
| HopsFileset.LastIndex | master_tags/DiFX-2.6.3/applications/hops/sub/util/fileset.c:53 | strrchr finds nothing exactly when the character is absent; otherwise it finds an occurrence with none after it |
| HopsFileset.CutLast | master_tags/DiFX-2.6.3/applications/hops/sub/util/fileset.c:52-56 | cutting at the last occurrence gives a head and a tail that rebuild the string around that character, and the tail does not contain it |
| HopsFileset.Spaces | master_tags/DiFX-2.6.3/applications/hops/sub/util/fileset.c:76 | %hd first skips the leading white space, up to the first non-space character |
| HopsFileset.DigitRun | master_tags/DiFX-2.6.3/applications/hops/sub/util/fileset.c:76 | the digits %hd reads are the longest run of decimal digits at that point |
| HopsFileset.ClampLong | master_tags/DiFX-2.6.3/applications/hops/sub/util/fileset.c:76 | the value strtol gives saturates at the 64-bit long limits and is exact within them |
| HopsFileset.ToShort | master_tags/DiFX-2.6.3/applications/hops/sub/util/fileset.c:76 | the conversion to short lands in [-32768, 32767], agrees with the long value modulo 65536, and keeps values already in range |
| HopsFileset.ShowNat | master_tags/DiFX-2.6.3/applications/hops/sub/util/fileset.c:76 | a natural number is written as a non-empty string of decimal digits |
| HopsFileset.DecimalShowNat | master_tags/DiFX-2.6.3/applications/hops/sub/util/fileset.c:76 | reading back the decimal digits of n gives n |
| HopsFileset.DigitsValue | master_tags/DiFX-2.6.3/applications/hops/sub/util/fileset.c:76 | an unsigned run of digits reads as its decimal value |
| HopsFileset.NegativeDigitsValue | master_tags/DiFX-2.6.3/applications/hops/sub/util/fileset.c:76 | a minus sign followed by digits reads as the negated decimal value |
| HopsFileset.ScanShortShow | master_tags/DiFX-2.6.3/applications/hops/sub/util/fileset.c:76 | %hd reads back every short written in decimal: a round trip |
| HopsFileset.FirstWindowFrom | master_tags/DiFX-2.6.3/applications/hops/sub/util/fileset.c:79-80 | the search from p finds the first position at or after p where four digits start, or reports that none exists |
| HopsFileset.RegexGroup | master_tags/DiFX-2.6.3/applications/hops/sub/util/fileset.c:79-87 | the pattern [^0-9]*([0-9]{4})[^0-9]* matches only when four consecutive digits occur; the first such run is a match of the group, and any match beginning at or before it puts the group there |
| HopsFileset.ExpnoOf | master_tags/DiFX-2.6.3/applications/hops/sub/util/fileset.c:76-98 | a successful %hd gives that value with no range check; otherwise the experiment number is accepted exactly when it lies in 1..9999, and a name with no four-digit run is rejected with 0 |
| HopsFileset.FourDigits | master_tags/DiFX-2.6.3/applications/hops/sub/util/fileset.c:86-87 | atoi of the four matched digits is at most 9999 |
| HopsFileset.ExpnoFromRun | master_tags/DiFX-2.6.3/applications/hops/sub/util/fileset.c:78-88 | when %hd fails and the directory name begins with non-digits followed by four digits, the experiment number is the value of those four digits |
| HopsFileset.TallyComplete | master_tags/DiFX-2.6.3/applications/hops/sub/util/fileset.c:106-139 | the directory pass succeeds exactly when no root-kind entry of this root code has a name other than the root name; on success the stored files are exactly the kept entries, in directory order |
| HopsFileset.TallyStops | master_tags/DiFX-2.6.3/applications/hops/sub/util/fileset.c:120-127 | a failing pass stops at the first discrepant root entry and keeps what it stored before it |
| HopsFileset.TallyPrefix | master_tags/DiFX-2.6.3/applications/hops/sub/util/fileset.c:120-127 | once the pass has failed, later entries change nothing |
| HopsFileset.TallyMax | master_tags/DiFX-2.6.3/applications/hops/sub/util/fileset.c:132 | maxfile is non-negative, at least every stored file number, and either 0 or the number of a stored file |
| HopsFileset.TallyMembers | master_tags/DiFX-2.6.3/applications/hops/sub/util/fileset.c:115-133 | every stored file has this root code and is not a root file |
| HopsFileset.RootCode | master_tags/DiFX-2.6.3/applications/hops/sub/util/fileset.c:57-58 | the root code is what follows the last '.' of the root name |
| HopsFileset.FilesetOf | master_tags/DiFX-2.6.3/applications/hops/sub/util/fileset.c:27-143 | the routine returns 0 or -1; a name not starting with '/' returns -1 with the fields cleared; an absolute name splits into scan directory and root name at its last '/'; success needs a readable directory |
| HopsFileset.InScanDir | master_tags/DiFX-2.6.3/applications/hops/sub/util/fileset.c:61-142 | after the split, success needs two more '/' levels above the scan, an accepted experiment directory and a pass with no discrepant root, and the stored maxfile and files are those of the pass |
| HopsFileset.FilesetPath | master_tags/DiFX-2.6.3/applications/hops/sub/util/fileset.c:52-98 | on success the scan directory is top/expdir/scanname, with no '/' in expdir or scanname, and the experiment number is the one decoded from expdir |
| HopsFileset.FilesetMembers | master_tags/DiFX-2.6.3/applications/hops/sub/util/fileset.c:106-139 | on success the files are exactly the kept members of the root's fileset, and maxfile is the largest file number among them, or 0 |
| HopsFileset.Fileset.constructor | master_tags/DiFX-2.6.3/applications/hops/sub/util/fileset.c:38-43 | a new record starts with all fields cleared |
| HopsFileset.Fileset.Fill | master_tags/DiFX-2.6.3/applications/hops/sub/util/fileset.c:27-143 | the routine's return code and the record's new fields are those FilesetOf specifies |
| HopsFileset.Fileset.ReadExpno | master_tags/DiFX-2.6.3/applications/hops/sub/util/fileset.c:76-98 | the %hd attempt, then the regular-expression fallback with its range check, decode the experiment number as ExpnoOf specifies |
| HopsFileset.Fileset.ReadEntries | master_tags/DiFX-2.6.3/applications/hops/sub/util/fileset.c:106-142 | the readdir loop stores the tally's maxfile and files and returns 0, or -1 at the first discrepant root |

Some behaviours of the code look unintended. The model keeps each of them as
written:

* In the job splitter's VSN loop, an erase restarts the iterator at `begin()`,
  and the loop's increment then steps past that entry. The entry that became
  first is never examined (`MakeJobs.SweepSkipsNewFirst`).
* The break loop reuses the previous `mjdBest` when no candidate scores, which
  makes its convergence guard reachable (`Breakpoints.StuckAborts`).
* The scan range's stop test in genJobs copies the start test's
  `mjdStart < 1.0` clause. After the first SCAN_START, the stop is therefore
  the latest SCAN_START time (`Breakpoints.PrescanScanRange`).
* calcFreqIds returns 0 for a single configuration even though it gives that
  configuration freqId 0 (`DifxInput.DifxInput.CalcFreqIds`).
* In fileset, a number read directly by `%hd` is not range-checked
  (`HopsFileset.ExpnoOf`).

## Left out

- Collaborators whose code lies outside the modelled files become function values in `VexModel.Collab`. These are the interval operations (overlap, containsAbsolutely, logicalOr, logicalAnd), nGap, nAntennasWithRecordedData, areCorrSetupsCompatible, genEvents, createJobs, assignVSNs, the data-source test, hasBasebandFile and sortEvents. Their properties are not assumed; `duration()` is taken as stop minus start.
- The initial `Interval()` of the scan range in genJobs is taken as (0, 0). interval.h is not part of this model.
- The cout/cerr diagnostics of makeJobs, genJobGroups and genJobs, and the verbose flag, are left out. They do not affect the result.
- `exit(EXIT_FAILURE)` in genJobs becomes the `Aborted` outcome, which MakeJobs returns instead of ending the process.
- MakeJobs.JobSweep: a job's media list, a std::map from antenna name to VSN in the C++ code, is whatever sequence the assignVSNs collaborator returns. The uniqueness of its antenna keys and iteration in key order are not imposed, so SweepSkipsNewFirst holds for any entry order and does not fix which antenna is the one skipped.
- Scans are identified by their position in the schedule, standing in for the unique scan names the C++ list holds.
- Times are `real`, so the 1e-8 day and 0.1 s tolerances are exact comparisons, and floating-point rounding is not modelled.
- In difx_input.c, the `if(!D)` null checks, the stderr messages, memory allocation and freeing, and makeBaselineFreq2IF (not among the modelled routines) are left out.
- The spacecraft lookup at the end of deriveSourceTable (difx_input.c:1939-1953) is left out. It only sets spacecraftId on the sources.
- DifxInput.DifxInput.DeriveDifxInputValues: the refFreq scan compares reals exactly; NaN frequencies are not modelled.
- DifxInput.DifxInput.DeriveDifxInputValues: requires specAvg to be non-zero when the nChan values agree, because the C code then divides nChan by specAvg (difx_input.c:1079-1081) and that integer division fails when specAvg is 0; the model leaves out that case rather than giving it a result.
- DifxInput.AddToList: the caller's array must have room for one more entry. Writing past the calloc'ed freqIds array is not modelled.
- DifxInput.DifxInput.GetSourceIdByJobId: jobId must index the job table. The C code reads out of bounds otherwise.
- In vexpeek, output text formatting (precision, setw, fixed) is left out. The report is a sequence of sections holding the values each part prints.
- The band list, the station coordinates and the verbose VEX dump of vexpeek are recorded as markers without contents. The VEX objects they print are not part of this model.
- Loading the VEX file (loadVexFile) and the module lookup (getVSNs) become the `PeekData` input of vexpeek.
- Opening the file in testVex becomes an optional file content. `getline` is modelled on that content string.
- VexPeek.FormatsFromFirst: `streams[0]` of a setup is taken to exist, and the format lookup is the setup's `format` field. A mode without a setup for the station and a missing mode are both `SetupLookup` values without a format.
- In fileset, opendir/readdir become an optional listing, which is `None` when the directory cannot be opened. check_name becomes each entry's optional `FileInfo`, and the regular expression is modelled concretely as the first run of four digits.
- HopsFileset.FilesetOf: a root name without '.' makes the C code step past the NULL that strrchr returns. The `NamesRootCode` requires excludes that input.
- HopsFileset.Fileset.Fill: has the same `NamesRootCode` requires.
- The MAXFSET capacity of the file table and the fixed 1024-byte buffers of fileset are not modelled. fileset.h is not part of this model.
- The msg() diagnostics of fileset and the strdup'ed name copies are left out. A member's name is stored as a value.
- HopsFileset.ClampLong: `long` is taken to be 64 bits wide. The strtol saturation behind `%hd` is modelled for that width.
