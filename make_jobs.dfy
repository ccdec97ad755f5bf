/**
 * makeJobs: the top of the job splitter. It adds the configured antenna start and
 * stop times to the timeline, groups the scans, breaks each group into jobs,
 * then numbers the jobs, stamps their start and stop on the timeline, drops
 * antennas that have no data for a job and flags jobs left with too few antennas.
 */
module MakeJobs {
  import opened Intervals
  import opened VexModel
  import opened Common
  import opened JobGroups
  import opened Breakpoints

  /** The parts of the experiment description makeJobs reads and extends. */
  class VexData {
    const scans: seq<Scan>
    var events: seq<Event>

    constructor(scans: seq<Scan>, events: seq<Event>)
      ensures this.scans == scans && this.events == events
    {
      this.scans := scans;
      this.events := events;
    }

    method AddEvent(mjd: real, kind: EventKind, name: string)
      modifies this
      ensures events == old(events) + [Event(mjd, kind, name)]
    {
      events := events + [Event(mjd, kind, name)];
    }

    method SortEvents(env: Collab)
      modifies this
      ensures events == env.sortEvents(old(events))
    {
      events := env.sortEvents(events);
    }
  }

  /* ---------- Antenna start and stop events ---------- */

  /** The events the configured antenna start and stop times add, in configuration order. */
  function AntennaEvents(setups: seq<AntennaSetup>): seq<Event>
  {
    if setups == [] then []
    else
      var a := setups[|setups| - 1];
      AntennaEvents(setups[..|setups| - 1])
      + (if a.mjdStart > 0.0 then [Event(a.mjdStart, AntennaStart, a.vexName)] else [])
      + (if a.mjdStop > 0.0 then [Event(a.mjdStop, AntennaStop, a.vexName)] else [])
  }

  /** Only positive start and stop times are added, and each of them is. */
  lemma {:induction false} AntennaEventsExact(setups: seq<AntennaSetup>, e: Event)
    ensures e in AntennaEvents(setups) <==>
      exists a | a in setups ::
        || (a.mjdStart > 0.0 && e == Event(a.mjdStart, AntennaStart, a.vexName))
        || (a.mjdStop > 0.0 && e == Event(a.mjdStop, AntennaStop, a.vexName))
  {
    if setups != [] {
      var init := setups[..|setups| - 1];
      var a := setups[|setups| - 1];
      assert setups == init + [a];
      AntennaEventsExact(init, e);
      if e in AntennaEvents(setups) && e !in AntennaEvents(init) {
        assert a in setups;
      }
      if exists b | b in setups ::
        || (b.mjdStart > 0.0 && e == Event(b.mjdStart, AntennaStart, b.vexName))
        || (b.mjdStop > 0.0 && e == Event(b.mjdStop, AntennaStop, b.vexName))
      {
        var b :| b in setups && (
          || (b.mjdStart > 0.0 && e == Event(b.mjdStart, AntennaStart, b.vexName))
          || (b.mjdStop > 0.0 && e == Event(b.mjdStop, AntennaStop, b.vexName)));
        if b != a {
          assert b in init;
        }
      }
    }
  }

  /** The first loop of makeJobs. */
  method AddAntennaEvents(V: VexData, setups: seq<AntennaSetup>)
    modifies V
    ensures V.events == old(V.events) + AntennaEvents(setups)
  {
    for i := 0 to |setups|
      invariant V.events == old(V.events) + AntennaEvents(setups[..i])
    {
      assert setups[..i + 1][..i] == setups[..i];
      var a := setups[i];
      if a.mjdStart > 0.0 {
        V.AddEvent(a.mjdStart, AntennaStart, a.vexName);
      }
      if a.mjdStop > 0.0 {
        V.AddEvent(a.mjdStop, AntennaStop, a.vexName);
      }
    }
    assert setups[..|setups|] == setups;
  }

  /* ---------- Jobs of all groups ---------- */

  /** Jobs gathered so far followed by one more genJobs outcome; an abort ends the run. */
  function Then(acc: Outcome<seq<Job>>, next: Outcome<seq<Job>>): Outcome<seq<Job>>
  {
    if acc.Aborted? || next.Aborted? then Aborted else Converged(acc.value + next.value)
  }

  /** The outcomes of genJobs gathered in order: their jobs appended, or Aborted if any aborted. */
  function Collect(outs: seq<Outcome<seq<Job>>>): Outcome<seq<Job>>
  {
    if outs == [] then Converged([]) else Then(Collect(outs[..|outs| - 1]), outs[|outs| - 1])
  }

  /** genJobs on each group, in group order. */
  function GroupOutcomes(groups: seq<JobGroup>, p: CorrParams, env: Collab): seq<Outcome<seq<Job>>>
  {
    seq(|groups|, i requires 0 <= i < |groups| => GenJobsOf(groups[i], p, env))
  }

  /**
   * The gathering aborts exactly when some outcome is an abort; otherwise every
   * job comes from one of the outcomes.
   */
  lemma {:induction false} CollectAbort(outs: seq<Outcome<seq<Job>>>)
    ensures Collect(outs).Aborted? <==> exists i | 0 <= i < |outs| :: outs[i].Aborted?
    ensures Collect(outs).Converged? ==>
      forall j | j in Collect(outs).value :: exists i | 0 <= i < |outs| :: outs[i].Converged? && j in outs[i].value
  {
    if outs != [] {
      var n := |outs| - 1;
      var init := outs[..n];
      CollectAbort(init);
      if exists i | 0 <= i < |outs| :: outs[i].Aborted? {
        var i :| 0 <= i < |outs| && outs[i].Aborted?;
        if i < n {
          assert init[i] == outs[i];
        }
      }
      if Collect(init).Aborted? {
        var i :| 0 <= i < n && init[i].Aborted?;
        assert outs[i] == init[i];
      }
      if Collect(outs).Converged? {
        forall j | j in Collect(outs).value
          ensures exists i | 0 <= i < |outs| :: outs[i].Converged? && j in outs[i].value
        {
          if j in Collect(init).value {
            var i :| 0 <= i < n && init[i].Converged? && j in init[i].value;
            assert outs[i] == init[i];
          }
        }
      }
    }
  }

  /**
   * The run aborts exactly when some group's break placement does not converge;
   * otherwise every job comes from one of the groups.
   */
  lemma GroupsJobsAbort(groups: seq<JobGroup>, p: CorrParams, env: Collab)
    ensures Collect(GroupOutcomes(groups, p, env)).Aborted? <==>
      exists g | g in groups :: GenJobsOf(g, p, env).Aborted?
    ensures Collect(GroupOutcomes(groups, p, env)).Converged? ==>
      forall j | j in Collect(GroupOutcomes(groups, p, env)).value ::
        exists g | g in groups :: GenJobsOf(g, p, env).Converged? && j in GenJobsOf(g, p, env).value
  {
    var outs := GroupOutcomes(groups, p, env);
    CollectAbort(outs);
    if exists g | g in groups :: GenJobsOf(g, p, env).Aborted? {
      var g :| g in groups && GenJobsOf(g, p, env).Aborted?;
      var i :| 0 <= i < |groups| && groups[i] == g;
      assert outs[i].Aborted?;
    }
    if Collect(outs).Converged? {
      forall j | j in Collect(outs).value
        ensures exists g | g in groups :: GenJobsOf(g, p, env).Converged? && j in GenJobsOf(g, p, env).value
      {
        var i :| 0 <= i < |outs| && outs[i].Converged? && j in outs[i].value;
        assert groups[i] in groups;
      }
    }
  }

  /** The state of the second loop of makeJobs after `g` outcomes. */
  ghost predicate Gathered(jobs0: seq<Job>, outs: seq<Outcome<seq<Job>>>, g: nat, jobs: seq<Job>)
  {
    && g <= |outs| && |jobs0| <= |jobs| && jobs[..|jobs0|] == jobs0
    && Collect(outs[..g]) == Converged(jobs[|jobs0|..])
  }

  lemma GatherStep(jobs0: seq<Job>, outs: seq<Outcome<seq<Job>>>, g: nat, jobs: seq<Job>, more: seq<Job>)
    requires g < |outs| && Gathered(jobs0, outs, g, jobs)
    requires outs[g] == Converged(more)
    ensures Gathered(jobs0, outs, g + 1, jobs + more)
  {
    assert outs[..g + 1][..g] == outs[..g];
    var next := jobs + more;
    assert next[|jobs0|..] == jobs[|jobs0|..] + more;
    assert next[..|jobs0|] == jobs[..|jobs0|];
  }

  /** Once a prefix of the outcomes aborts, so does the whole gathering. */
  lemma {:induction false} AbortPersists(outs: seq<Outcome<seq<Job>>>, n: nat)
    requires n <= |outs|
    requires Collect(outs[..n]).Aborted?
    ensures Collect(outs).Aborted?
    decreases |outs| - n
  {
    if n < |outs| {
      assert outs[..n + 1][..n] == outs[..n];
      AbortPersists(outs, n + 1);
    } else {
      assert outs[..n] == outs;
    }
  }

  lemma GatherAbort(outs: seq<Outcome<seq<Job>>>, g: nat)
    requires g < |outs| && Collect(outs[..g]).Converged? && outs[g].Aborted?
    ensures Collect(outs).Aborted?
  {
    assert outs[..g + 1][..g] == outs[..g];
    AbortPersists(outs, g + 1);
  }

  lemma GatherDone(jobs0: seq<Job>, outs: seq<Outcome<seq<Job>>>, jobs: seq<Job>)
    requires Gathered(jobs0, outs, |outs|, jobs)
    ensures Converged(jobs) == Then(Converged(jobs0), Collect(outs))
  {
    assert outs[..|outs|] == outs;
    assert jobs == jobs0 + jobs[|jobs0|..];
  }

  /** The second loop of makeJobs: genJobs on every group, appending to the job list. */
  method GenAllJobs(jobs0: seq<Job>, groups: seq<JobGroup>, p: CorrParams, env: Collab)
    returns (r: Outcome<seq<Job>>)
    ensures r == Then(Converged(jobs0), Collect(GroupOutcomes(groups, p, env)))
  {
    ghost var outs := GroupOutcomes(groups, p, env);
    var jobs := jobs0;
    assert outs[..0] == [] && jobs[|jobs0|..] == [];
    for g := 0 to |groups|
      invariant Gathered(jobs0, outs, g, jobs)
    {
      var more := GenJobs(groups[g], p, env);
      assert outs[g] == more;
      if more.Aborted? {
        GatherAbort(outs, g);
        return Aborted;
      }
      GatherStep(jobs0, outs, g, jobs, more.value);
      jobs := jobs + more.value;
    }
    GatherDone(jobs0, outs, jobs);
    return Converged(jobs);
  }

  /* ---------- Removing antennas without data ---------- */

  /**
   * An antenna of a job has no data when it has no media ("None"), reads its data
   * from files and none of its baseband files overlaps the job.
   */
  predicate NoData(entry: (string, string), range: Interval, env: Collab)
  {
    entry.1 == "None" && env.isFileSource(entry.0) && !env.hasBasebandFile(entry.0, range)
  }

  datatype Sweep = Sweep(kept: seq<(string, string)>, gone: seq<(string, string)>)

  /**
   * The removal loop of makeJobs, from cursor `i`. After an erase the cursor goes
   * back to the first entry and is then advanced, so the loop resumes at the
   * second entry; an emptied list ends it.
   */
  function SweepFrom(vsns: seq<(string, string)>, i: nat, range: Interval, env: Collab): Sweep
    requires i <= |vsns|
    decreases |vsns|, |vsns| - i
  {
    if i == |vsns| then Sweep(vsns, [])
    else if NoData(vsns[i], range, env) then
      var rest := vsns[..i] + vsns[i + 1..];
      if rest == [] then Sweep([], [vsns[i]])
      else
        var s := SweepFrom(rest, 1, range, env);
        Sweep(s.kept, [vsns[i]] + s.gone)
    else SweepFrom(vsns, i + 1, range, env)
  }

  /** The removal loop loses and invents nothing. */
  lemma {:induction false} SweepConserves(vsns: seq<(string, string)>, i: nat, range: Interval, env: Collab)
    requires i <= |vsns|
    ensures var s := SweepFrom(vsns, i, range, env);
      multiset(s.kept) + multiset(s.gone) == multiset(vsns)
    decreases |vsns|, |vsns| - i
  {
    if i < |vsns| {
      if NoData(vsns[i], range, env) {
        var rest := vsns[..i] + vsns[i + 1..];
        assert vsns == vsns[..i] + [vsns[i]] + vsns[i + 1..];
        assert multiset(vsns) == multiset(rest) + multiset{vsns[i]};
        if rest != [] {
          SweepConserves(rest, 1, range, env);
        }
      } else {
        SweepConserves(vsns, i + 1, range, env);
      }
    }
  }

  /** Only entries without data are dropped. */
  lemma {:induction false} SweepDrops(vsns: seq<(string, string)>, i: nat, range: Interval, env: Collab)
    requires i <= |vsns|
    ensures forall x | x in SweepFrom(vsns, i, range, env).gone :: NoData(x, range, env)
    decreases |vsns|, |vsns| - i
  {
    if i < |vsns| {
      if NoData(vsns[i], range, env) {
        var rest := vsns[..i] + vsns[i + 1..];
        if rest != [] {
          SweepDrops(rest, 1, range, env);
        }
      } else {
        SweepDrops(vsns, i + 1, range, env);
      }
    }
  }

  /**
   * Every kept entry after the first has data; when nothing is dropped, the list
   * is unchanged and every entry from the cursor on has data.
   */
  lemma {:induction false} SweepKeeps(vsns: seq<(string, string)>, i: nat, range: Interval, env: Collab)
    requires i <= |vsns|
    requires forall k | 1 <= k < i :: !NoData(vsns[k], range, env)
    ensures var s := SweepFrom(vsns, i, range, env);
      && (forall k | 1 <= k < |s.kept| :: !NoData(s.kept[k], range, env))
      && (s.gone == [] ==> s.kept == vsns && forall k | i <= k < |vsns| :: !NoData(vsns[k], range, env))
    decreases |vsns|, |vsns| - i
  {
    if i < |vsns| {
      if NoData(vsns[i], range, env) {
        var rest := vsns[..i] + vsns[i + 1..];
        if rest != [] {
          SweepKeeps(rest, 1, range, env);
        }
      } else {
        SweepKeeps(vsns, i + 1, range, env);
      }
    }
  }

  /**
   * The entry that becomes first after the first entry is erased is never
   * examined: with two antennas both without data, the second one survives.
   */
  lemma SweepSkipsNewFirst(a: (string, string), b: (string, string), range: Interval, env: Collab)
    requires NoData(a, range, env) && NoData(b, range, env)
    ensures SweepFrom([a, b], 0, range, env) == Sweep([b], [a])
  {
    assert [a, b][..0] + [a, b][1..] == [b];
  }

  /** Each dropped entry recorded with its job id. */
  function Tag(jobId: int, gone: seq<(string, string)>): (r: seq<(int, string)>)
    ensures |r| == |gone|
    ensures forall k | 0 <= k < |r| :: r[k] == (jobId, gone[k].0)
  {
    if gone == [] then [] else [(jobId, gone[0].0)] + Tag(jobId, gone[1..])
  }

  /** The state of the removal loop: what is left to do, from cursor `i`, completes the sweep of `vsns0`. */
  ghost predicate Swept(vsns0: seq<(string, string)>, vsns: seq<(string, string)>, i: nat, gone: seq<(string, string)>,
                        range: Interval, env: Collab)
  {
    i <= |vsns| &&
    SweepFrom(vsns0, 0, range, env) ==
      Sweep(SweepFrom(vsns, i, range, env).kept, gone + SweepFrom(vsns, i, range, env).gone)
  }

  lemma SweepDropStep(vsns0: seq<(string, string)>, vsns: seq<(string, string)>, i: nat, gone: seq<(string, string)>,
                      range: Interval, env: Collab)
    requires Swept(vsns0, vsns, i, gone, range, env) && i < |vsns| && NoData(vsns[i], range, env)
    ensures var rest := vsns[..i] + vsns[i + 1..];
      Swept(vsns0, rest, if rest == [] then 0 else 1, gone + [vsns[i]], range, env)
  {
    var rest := vsns[..i] + vsns[i + 1..];
    if rest == [] {
      assert gone + [vsns[i]] + [] == gone + [vsns[i]];
    } else {
      var s := SweepFrom(rest, 1, range, env);
      assert gone + ([vsns[i]] + s.gone) == (gone + [vsns[i]]) + s.gone;
    }
  }

  lemma SweepKeepStep(vsns0: seq<(string, string)>, vsns: seq<(string, string)>, i: nat, gone: seq<(string, string)>,
                      range: Interval, env: Collab)
    requires Swept(vsns0, vsns, i, gone, range, env) && i < |vsns| && !NoData(vsns[i], range, env)
    ensures Swept(vsns0, vsns, i + 1, gone, range, env)
  {
  }

  lemma SweepEnd(vsns0: seq<(string, string)>, vsns: seq<(string, string)>, gone: seq<(string, string)>,
                 range: Interval, env: Collab)
    requires Swept(vsns0, vsns, |vsns|, gone, range, env)
    ensures SweepFrom(vsns0, 0, range, env) == Sweep(vsns, gone)
  {
    assert gone + [] == gone;
  }

  /** The removal loop of makeJobs on one job's media list. */
  method RemoveAntennasWithoutData(vsns0: seq<(string, string)>, range: Interval, jobId: int,
                                   removed0: seq<(int, string)>, env: Collab)
    returns (vsns: seq<(string, string)>, removed: seq<(int, string)>)
    ensures vsns == SweepFrom(vsns0, 0, range, env).kept
    ensures removed == removed0 + Tag(jobId, SweepFrom(vsns0, 0, range, env).gone)
  {
    vsns := vsns0;
    removed := removed0;
    ghost var gone: seq<(string, string)> := [];
    var i := 0;
    while i < |vsns|
      invariant Swept(vsns0, vsns, i, gone, range, env)
      invariant removed == removed0 + Tag(jobId, gone)
      decreases |vsns|, |vsns| - i
    {
      if NoData(vsns[i], range, env) {
        SweepDropStep(vsns0, vsns, i, gone, range, env);
        TagAppend(jobId, gone, vsns[i]);
        removed := removed + [(jobId, vsns[i].0)];
        gone := gone + [vsns[i]];
        vsns := vsns[..i] + vsns[i + 1..];
        i := 0;
        if |vsns| == 0 {
          break;
        }
      } else {
        SweepKeepStep(vsns0, vsns, i, gone, range, env);
      }
      i := i + 1;
    }
    SweepEnd(vsns0, vsns, gone, range, env);
  }

  lemma TagAppend(jobId: int, gone: seq<(string, string)>, x: (string, string))
    ensures Tag(jobId, gone + [x]) == Tag(jobId, gone) + [(jobId, x.0)]
  {
  }

  /* ---------- Finalizing the jobs ---------- */

  /** The decimal form of a natural number. */
  function NatString(n: nat): string
  {
    var d := ['0', '1', '2', '3', '4', '5', '6', '7', '8', '9'][n % 10];
    if n < 10 then [d] else NatString(n / 10) + [d]
  }

  /** The decimal form of an integer, with a leading '-' when negative. */
  function IntString(n: int): string
  {
    if n < 0 then "-" + NatString(-n) else NatString(n)
  }

  /** The internal name of a job: its series, '_' and its id. */
  function JobName(series: string, jobId: int): string
  {
    series + "_" + IntString(jobId)
  }

  /** The timeline after job `j`, numbered `jobId`, has its start and stop added. */
  function Stamped(events: seq<Event>, j: Job, jobId: int, p: CorrParams): seq<Event>
  {
    var name := JobName(p.jobSeries, jobId);
    events + [Event(j.range.mjdStart, JobStart, name), Event(j.range.mjdStop, JobStop, name)]
  }

  /** The media list job `j` gets once numbered and stamped on the timeline. */
  function AssignedVSNs(events: seq<Event>, j: Job, jobId: int, p: CorrParams, env: Collab): seq<(string, string)>
  {
    env.assignVSNs(j.(jobSeries := p.jobSeries, jobId := jobId), Stamped(events, j, jobId, p))
  }

  /** What the removal loop does to that media list. */
  function JobSweep(events: seq<Event>, j: Job, jobId: int, p: CorrParams, env: Collab): Sweep
  {
    SweepFrom(AssignedVSNs(events, j, jobId, p, env), 0, j.range, env)
  }

  /**
   * Job `j` once finalized: numbered, left with the antennas that have data, and
   * flagged "-" when fewer than minSubarraySize antennas remain.
   */
  function FinalJob(events: seq<Event>, j: Job, jobId: int, p: CorrParams, env: Collab): (r: Job)
    ensures r.range == j.range && r.jobId == jobId
    ensures r.vsns == JobSweep(events, j, jobId, p, env).kept
    ensures r.jobSeries == "-" <==> |r.vsns| < p.minSubarraySize || p.jobSeries == "-"
  {
    var kept := JobSweep(events, j, jobId, p, env).kept;
    Job(j.range, if |kept| < p.minSubarraySize then "-" else p.jobSeries, jobId, kept)
  }

  /*
   * The finalizing loop is given by three folds over the job list: the timeline
   * as each job's turn leaves it, the finalized jobs and the removal records.
   * Job k's id is startSeries + k.
   */

  function TimelineAfter(jobs: seq<Job>, events0: seq<Event>, p: CorrParams): seq<Event>
  {
    if jobs == [] then events0
    else
      var n := |jobs| - 1;
      Stamped(TimelineAfter(jobs[..n], events0, p), jobs[n], p.startSeries + n, p)
  }

  /** One value per job, each computed from the timeline before the job's turn, the job and its id. */
  function PerTurn<T>(jobs: seq<Job>, events0: seq<Event>, p: CorrParams, f: (seq<Event>, Job, int) -> T): seq<T>
  {
    if jobs == [] then []
    else
      var n := |jobs| - 1;
      PerTurn(jobs[..n], events0, p, f) + [f(TimelineAfter(jobs[..n], events0, p), jobs[n], p.startSeries + n)]
  }

  lemma {:induction false} PerTurnLength<T>(jobs: seq<Job>, events0: seq<Event>, p: CorrParams, f: (seq<Event>, Job, int) -> T)
    ensures |PerTurn(jobs, events0, p, f)| == |jobs|
  {
    if jobs != [] {
      PerTurnLength(jobs[..|jobs| - 1], events0, p, f);
    }
  }

  /** The value of PerTurn at job `k`. */
  lemma {:induction false} PerTurnAt<T>(jobs: seq<Job>, k: nat, events0: seq<Event>, p: CorrParams, f: (seq<Event>, Job, int) -> T)
    requires k < |jobs|
    ensures |PerTurn(jobs, events0, p, f)| == |jobs|
    ensures PerTurn(jobs, events0, p, f)[k] == f(TimelineAfter(jobs[..k], events0, p), jobs[k], p.startSeries + k)
  {
    var n := |jobs| - 1;
    var init := jobs[..n];
    PerTurnLength(init, events0, p, f);
    if k < n {
      PerTurnAt(init, k, events0, p, f);
      assert jobs[..k] == init[..k] && jobs[k] == init[k];
    }
  }

  /** The concatenation of a sequence of sequences. */
  function Flatten<T>(ss: seq<seq<T>>): seq<T>
  {
    if ss == [] then [] else Flatten(ss[..|ss| - 1]) + ss[|ss| - 1]
  }

  lemma {:induction false} FlattenMembers<T>(ss: seq<seq<T>>)
    ensures forall x | x in Flatten(ss) :: exists k | 0 <= k < |ss| :: x in ss[k]
  {
    if ss != [] {
      var n := |ss| - 1;
      FlattenMembers(ss[..n]);
      forall x | x in Flatten(ss)
        ensures exists k | 0 <= k < |ss| :: x in ss[k]
      {
        if x in Flatten(ss[..n]) {
          var k :| 0 <= k < n && x in ss[..n][k];
          assert ss[k] == ss[..n][k];
        }
      }
    }
  }

  /** The jobs once finalized, in order. */
  function FinalJobs(jobs: seq<Job>, events0: seq<Event>, p: CorrParams, env: Collab): seq<Job>
  {
    PerTurn(jobs, events0, p, (events, j, jobId) => FinalJob(events, j, jobId, p, env))
  }

  lemma FinalJobsLength(jobs: seq<Job>, events0: seq<Event>, p: CorrParams, env: Collab)
    ensures |FinalJobs(jobs, events0, p, env)| == |jobs|
  {
    PerTurnLength(jobs, events0, p, (events, j, jobId) => FinalJob(events, j, jobId, p, env));
  }

  /** The removal records of all jobs, in job order. */
  function Removals(jobs: seq<Job>, events0: seq<Event>, p: CorrParams, env: Collab): seq<(int, string)>
  {
    Flatten(PerTurn(jobs, events0, p, (events, j, jobId) => Tag(jobId, JobSweep(events, j, jobId, p, env).gone)))
  }

  /**
   * The timeline starts as given and each job's turn adds its start and stop, under
   * its name, in job order.
   */
  lemma FinalizeTimeline(jobs: seq<Job>, k: nat, events0: seq<Event>, p: CorrParams)
    requires k < |jobs|
    ensures TimelineAfter(jobs[..0], events0, p) == events0
    ensures TimelineAfter(jobs[..k + 1], events0, p) ==
      TimelineAfter(jobs[..k], events0, p)
      + [Event(jobs[k].range.mjdStart, JobStart, JobName(p.jobSeries, p.startSeries + k)),
         Event(jobs[k].range.mjdStop, JobStop, JobName(p.jobSeries, p.startSeries + k))]
  {
    assert jobs[..0] == [];
    assert jobs[..k + 1][..k] == jobs[..k];
  }

  /**
   * Job `k` keeps its time range, gets id startSeries + k, keeps what the removal
   * loop leaves of the media it is assigned at its turn, and is flagged "-"
   * exactly when fewer than minSubarraySize antennas remain.
   */
  lemma FinalizeJobs(jobs: seq<Job>, events0: seq<Event>, p: CorrParams, env: Collab)
    ensures |FinalJobs(jobs, events0, p, env)| == |jobs|
    ensures forall k | 0 <= k < |jobs| ::
      var fj := FinalJobs(jobs, events0, p, env)[k];
      && fj.range == jobs[k].range
      && fj.jobId == p.startSeries + k
      && fj.vsns == JobSweep(TimelineAfter(jobs[..k], events0, p), jobs[k], p.startSeries + k, p, env).kept
      && (fj.jobSeries == "-" <==> |fj.vsns| < p.minSubarraySize || p.jobSeries == "-")
  {
    FinalJobsLength(jobs, events0, p, env);
    forall k | 0 <= k < |jobs|
      ensures var fj := FinalJobs(jobs, events0, p, env)[k];
        && fj.range == jobs[k].range
        && fj.jobId == p.startSeries + k
        && fj.vsns == JobSweep(TimelineAfter(jobs[..k], events0, p), jobs[k], p.startSeries + k, p, env).kept
        && (fj.jobSeries == "-" <==> |fj.vsns| < p.minSubarraySize || p.jobSeries == "-")
    {
      FinalJobAt(jobs, k, events0, p, env);
    }
  }

  /** Job `k` of the finalized list is job `k` finalized on the timeline its turn sees. */
  lemma FinalJobAt(jobs: seq<Job>, k: nat, events0: seq<Event>, p: CorrParams, env: Collab)
    requires k < |jobs|
    ensures k < |FinalJobs(jobs, events0, p, env)|
    ensures FinalJobs(jobs, events0, p, env)[k] == FinalJob(TimelineAfter(jobs[..k], events0, p), jobs[k], p.startSeries + k, p, env)
  {
    FinalJobsLength(jobs, events0, p, env);
    PerTurnAt(jobs, k, events0, p, (events, j, jobId) => FinalJob(events, j, jobId, p, env));
  }

  /** A removal record `r` of job `j`, numbered `jobId`: its id and an antenna of its media list without data. */
  ghost predicate RemovalOf(r: (int, string), events: seq<Event>, j: Job, jobId: int, p: CorrParams, env: Collab)
  {
    r.0 == jobId && exists x | x in AssignedVSNs(events, j, jobId, p, env) :: x.0 == r.1 && NoData(x, j.range, env)
  }

  /** The removals one job records are removal records of that job. */
  lemma JobRemovals(events: seq<Event>, j: Job, jobId: int, p: CorrParams, env: Collab)
    ensures forall r | r in Tag(jobId, JobSweep(events, j, jobId, p, env).gone) :: RemovalOf(r, events, j, jobId, p, env)
  {
    var vs := AssignedVSNs(events, j, jobId, p, env);
    SweepConserves(vs, 0, j.range, env);
    SweepDrops(vs, 0, j.range, env);
    var gone := JobSweep(events, j, jobId, p, env).gone;
    var tagged := Tag(jobId, gone);
    forall r | r in tagged
      ensures RemovalOf(r, events, j, jobId, p, env)
    {
      var i :| 0 <= i < |tagged| && tagged[i] == r;
      assert gone[i] in multiset(vs);
    }
  }

  /** Each recorded removal names a job's id and an antenna of that job that had no data. */
  lemma FinalizeRemovals(jobs: seq<Job>, events0: seq<Event>, p: CorrParams, env: Collab)
    ensures forall r | r in Removals(jobs, events0, p, env) ::
      exists k | 0 <= k < |jobs| :: RemovalOf(r, TimelineAfter(jobs[..k], events0, p), jobs[k], p.startSeries + k, p, env)
  {
    var f := (events, j, jobId) => Tag(jobId, JobSweep(events, j, jobId, p, env).gone);
    var tags := PerTurn(jobs, events0, p, f);
    PerTurnLength(jobs, events0, p, f);
    FlattenMembers(tags);
    forall r | r in Flatten(tags)
      ensures exists k | 0 <= k < |jobs| ::
        RemovalOf(r, TimelineAfter(jobs[..k], events0, p), jobs[k], p.startSeries + k, p, env)
    {
      var k :| 0 <= k < |tags| && r in tags[k];
      var before := TimelineAfter(jobs[..k], events0, p);
      PerTurnAt(jobs, k, events0, p, f);
      assert tags[k] == Tag(p.startSeries + k, JobSweep(before, jobs[k], p.startSeries + k, p, env).gone);
      RemovalAtTurn(jobs, k, events0, p, env, r);
    }
  }

  /** A removal job `k` records at its turn is a removal record of job `k`. */
  lemma RemovalAtTurn(jobs: seq<Job>, k: nat, events0: seq<Event>, p: CorrParams, env: Collab, r: (int, string))
    requires k < |jobs|
    requires r in Tag(p.startSeries + k, JobSweep(TimelineAfter(jobs[..k], events0, p), jobs[k], p.startSeries + k, p, env).gone)
    ensures exists k' | 0 <= k' < |jobs| ::
      RemovalOf(r, TimelineAfter(jobs[..k'], events0, p), jobs[k'], p.startSeries + k', p, env)
  {
    var before := TimelineAfter(jobs[..k], events0, p);
    JobRemovals(before, jobs[k], p.startSeries + k, p, env);
    assert RemovalOf(r, before, jobs[k], p.startSeries + k, p, env);
  }

  /** One round of the finalizing loop, on job `j0` numbered `jobId`. */
  method FinalizeJob(V: VexData, j0: Job, jobId: int, removed0: seq<(int, string)>, p: CorrParams, env: Collab)
    returns (j: Job, removed: seq<(int, string)>)
    modifies V
    ensures V.events == Stamped(old(V.events), j0, jobId, p)
    ensures j == FinalJob(old(V.events), j0, jobId, p, env)
    ensures removed == removed0 + Tag(jobId, JobSweep(old(V.events), j0, jobId, p, env).gone)
  {
    j := j0.(jobSeries := p.jobSeries, jobId := jobId);
    var name := JobName(j.jobSeries, j.jobId);
    V.AddEvent(j.range.mjdStart, JobStart, name);
    V.AddEvent(j.range.mjdStop, JobStop, name);
    j := j.(vsns := env.assignVSNs(j, V.events));
    var kept;
    kept, removed := RemoveAntennasWithoutData(j.vsns, j.range, jobId, removed0, env);
    j := j.(vsns := kept);
    if |j.vsns| < p.minSubarraySize {
      j := j.(jobSeries := "-");
    }
  }

  /**
   * The state of the finalizing loop after `k` rounds: the first `k` jobs are
   * finalized and the rest untouched, the timeline carries the first `k` jobs'
   * start and stop events, and their removal records follow the caller's list.
   */
  ghost predicate FinalizedUpTo(jobs0: seq<Job>, k: nat, events0: seq<Event>, removed0: seq<(int, string)>,
                                p: CorrParams, env: Collab, jobs: seq<Job>, events: seq<Event>, removed: seq<(int, string)>)
  {
    && k <= |jobs0|
    && jobs == FinalJobs(jobs0[..k], events0, p, env) + jobs0[k..]
    && events == TimelineAfter(jobs0[..k], events0, p)
    && removed == removed0 + Removals(jobs0[..k], events0, p, env)
  }

  /** One round of the finalizing loop takes the loop state from `k` rounds to `k + 1`. */
  lemma FinalizeStep(jobs0: seq<Job>, k: nat, events0: seq<Event>, removed0: seq<(int, string)>, p: CorrParams, env: Collab,
                     jobs: seq<Job>, events: seq<Event>, removed: seq<(int, string)>,
                     j: Job, events': seq<Event>, removed': seq<(int, string)>)
    requires k < |jobs0| && FinalizedUpTo(jobs0, k, events0, removed0, p, env, jobs, events, removed)
    requires k < |jobs|
    requires j == FinalJob(events, jobs[k], p.startSeries + k, p, env)
    requires events' == Stamped(events, jobs[k], p.startSeries + k, p)
    requires removed' == removed + Tag(p.startSeries + k, JobSweep(events, jobs[k], p.startSeries + k, p, env).gone)
    ensures FinalizedUpTo(jobs0, k + 1, events0, removed0, p, env, jobs[k := j], events', removed')
  {
    FinalizeRound(jobs0, k, events0, p, env);
    FinalJobsLength(jobs0[..k], events0, p, env);
    ReplaceAt(FinalJobs(jobs0[..k], events0, p, env), jobs0[k..]);
    var jobId := p.startSeries + k;
    AppendAfter(removed0, Removals(jobs0[..k], events0, p, env), Tag(jobId, JobSweep(events, jobs0[k], jobId, p, env).gone));
  }

  /** The finalizing loop of makeJobs, renumbering the job list in place. */
  method FinalizeAll(V: VexData, jobs0: seq<Job>, removed0: seq<(int, string)>, p: CorrParams, env: Collab)
    returns (jobs: seq<Job>, removed: seq<(int, string)>)
    modifies V
    ensures jobs == FinalJobs(jobs0, old(V.events), p, env)
    ensures V.events == TimelineAfter(jobs0, old(V.events), p)
    ensures removed == removed0 + Removals(jobs0, old(V.events), p, env)
  {
    jobs := jobs0;
    removed := removed0;
    var jobId := p.startSeries;
    for k := 0 to |jobs0|
      invariant FinalizedUpTo(jobs0, k, old(V.events), removed0, p, env, jobs, V.events, removed)
      invariant jobId == p.startSeries + k
    {
      FinalJobsLength(jobs0[..k], old(V.events), p, env);
      ghost var events := V.events;
      ghost var removedBefore := removed;
      var j;
      j, removed := FinalizeJob(V, jobs[k], jobId, removed, p, env);
      FinalizeStep(jobs0, k, old(V.events), removed0, p, env, jobs, events, removedBefore, j, V.events, removed);
      jobs := jobs[k := j];
      jobId := jobId + 1;
    }
    FinalizedDone(jobs0, old(V.events), removed0, p, env, jobs, V.events, removed);
  }

  /** After the last round the loop state is the three folds over the whole job list. */
  lemma FinalizedDone(jobs0: seq<Job>, events0: seq<Event>, removed0: seq<(int, string)>, p: CorrParams, env: Collab,
                      jobs: seq<Job>, events: seq<Event>, removed: seq<(int, string)>)
    requires FinalizedUpTo(jobs0, |jobs0|, events0, removed0, p, env, jobs, events, removed)
    ensures jobs == FinalJobs(jobs0, events0, p, env)
    ensures events == TimelineAfter(jobs0, events0, p)
    ensures removed == removed0 + Removals(jobs0, events0, p, env)
  {
    assert jobs0[..|jobs0|] == jobs0;
    assert jobs0[|jobs0|..] == [];
  }

  /** Appending to a list that extends `a` extends `a` by the concatenation. */
  lemma AppendAfter<T>(a: seq<T>, b: seq<T>, c: seq<T>)
    ensures (a + b) + c == a + (b + c)
  {
  }

  /** Round `k` of the finalizing loop extends each of the three folds by job `k`. */
  lemma FinalizeRound(jobs: seq<Job>, k: nat, events0: seq<Event>, p: CorrParams, env: Collab)
    requires k < |jobs|
    ensures var before := TimelineAfter(jobs[..k], events0, p);
      && FinalJobs(jobs[..k + 1], events0, p, env) ==
           FinalJobs(jobs[..k], events0, p, env) + [FinalJob(before, jobs[k], p.startSeries + k, p, env)]
      && TimelineAfter(jobs[..k + 1], events0, p) == Stamped(before, jobs[k], p.startSeries + k, p)
      && Removals(jobs[..k + 1], events0, p, env) ==
           Removals(jobs[..k], events0, p, env) + Tag(p.startSeries + k, JobSweep(before, jobs[k], p.startSeries + k, p, env).gone)
  {
    assert jobs[..k + 1][..k] == jobs[..k];
    var g := (events, j, jobId) => Tag(jobId, JobSweep(events, j, jobId, p, env).gone);
    var tags := PerTurn(jobs[..k + 1], events0, p, g);
    assert tags[..|tags| - 1] == PerTurn(jobs[..k], events0, p, g);
  }

  /** Replacing the head of the unfinished part of the job list. */
  lemma ReplaceAt(done: seq<Job>, rest: seq<Job>)
    requires rest != []
    ensures (done + rest)[|done|] == rest[0]
    ensures forall j :: (done + rest)[|done| := j] == (done + [j]) + rest[1..]
  {
    forall j
      ensures (done + rest)[|done| := j] == (done + [j]) + rest[1..]
    {
      assert (done + rest)[|done| := j] == done + [j] + rest[1..];
    }
  }

  /* ---------- makeJobs ---------- */

  /**
   * makeJobs. The timeline first gains the antenna start and stop events and is
   * sorted; the scans are grouped on it; when break placement converges for
   * every group, the jobs are those of `J` followed by every group's jobs,
   * finalized in that order, the records of antennas removed for lack of data
   * follow the caller's `removedAntennas`, and the timeline, with each job's
   * start and stop added, is sorted again. `groups` is the grouping genJobGroups
   * produced: the greedy seed-and-absorb pass `Groups` on the sorted timeline.
   */
  method MakeJobs(V: VexData, J: seq<Job>, removedAntennas: seq<(int, string)>, p: CorrParams, env: Collab)
    returns (r: Outcome<(seq<Job>, seq<(int, string)>)>, ghost groups: seq<JobGroup>)
    modifies V
    ensures var timeline := env.sortEvents(old(V.events) + AntennaEvents(p.antennaSetups));
      && groups == Groups(V.scans, timeline, p, env)
      && (forall g | g in groups ::
            && WellFormedGroup(g, V.scans, p, env)
            && g.range == env.logicalAnd(Hull(V.scans, g.scans, env), p.window)
            && g.events == env.genEvents(Hull(V.scans, g.scans, env), timeline))
      && NoDup(Members(groups))
      && (forall k :: 0 <= k < |V.scans| && k !in Members(groups) ==> env.nRecordedAnt(V.scans[k]) < p.minSubarraySize)
      && match Collect(GroupOutcomes(groups, p, env))
         case Aborted => r.Aborted?
         case Converged(js) =>
           && r == Converged((FinalJobs(J + js, timeline, p, env), removedAntennas + Removals(J + js, timeline, p, env)))
           && V.events == env.sortEvents(TimelineAfter(J + js, timeline, p))
  {
    AddAntennaEvents(V, p.antennaSetups);
    V.SortEvents(env);
    var JG, nNoRecordScan := GenJobGroups(V.scans, V.events, p, env);
    groups := JG;
    var all := GenAllJobs(J, JG, p, env);
    if all.Aborted? {
      return Aborted, groups;
    }
    var jobs, removed := FinalizeAll(V, all.value, removedAntennas, p, env);
    V.SortEvents(env);
    r := Converged((jobs, removed));
  }
}
