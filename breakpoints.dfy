/**
 * genJobs: splitting one job group into jobs. A first pass over the group's
 * events counts the recording antennas and the span of scan starts; a second
 * pass collects candidate break times, antenna usage, clock breaks and media
 * changes; then breaks are placed greedily, best score first, until every
 * clock break is a break and every media change holds a break; finally the
 * group is cut at the sorted breaks and each long enough piece becomes jobs.
 */
module Breakpoints {
  import opened Common
  import opened Intervals
  import opened VexModel

  /** The outcome of a step that may end the program (exit(EXIT_FAILURE)). */
  datatype Outcome<T> = Converged(value: T) | Aborted

  /* ---------- Maps read through std::map::operator[] ---------- */

  /** operator[] on a key never assigned reads the value-initialised 0. */
  function Get(m: map<real, int>, k: real): int
  {
    if k in m then m[k] else 0
  }

  function GetStop(m: map<string, real>, k: string): real
  {
    if k in m then m[k] else 0.0
  }

  /** The sum of a map's values. */
  ghost function MapSum(m: map<real, int>): int
    decreases |m.Keys|
  {
    if m == map[] then 0
    else
      MapNonEmptyHasKey(m);
      var k :| k in m.Keys;
      m[k] + MapSum(m - {k})
  }

  lemma MapNonEmptyHasKey(m: map<real, int>)
    requires m != map[]
    ensures exists k :: k in m.Keys
  {
    if forall k :: k !in m.Keys {
      assert false;
    }
  }

  ghost predicate NonNegative(m: map<real, int>)
  {
    forall k | k in m :: m[k] >= 0
  }

  /** Any key can be taken out first. */
  lemma {:induction false} MapSumPick(m: map<real, int>, k: real)
    requires k in m
    ensures MapSum(m) == m[k] + MapSum(m - {k})
    decreases |m.Keys|
  {
    var j :| j in m.Keys && MapSum(m) == m[j] + MapSum(m - {j});
    if j != k {
      assert (m - {j}).Keys == m.Keys - {j};
      MapSumPick(m - {j}, k);
      assert (m - {k}).Keys == m.Keys - {k};
      MapSumPick(m - {k}, j);
      assert m - {j} - {k} == m - {k} - {j};
    }
  }

  /** Writing one entry changes the sum by the difference. */
  lemma MapSumUpdate(m: map<real, int>, k: real, v: int)
    ensures MapSum(m[k := v]) == MapSum(m) - Get(m, k) + v
  {
    MapSumPick(m[k := v], k);
    if k in m {
      MapSumPick(m, k);
      assert m[k := v] - {k} == m - {k};
    } else {
      assert m[k := v] - {k} == m;
    }
  }

  lemma {:induction false} MapSumNonNegative(m: map<real, int>)
    requires NonNegative(m)
    ensures MapSum(m) >= 0
    decreases |m.Keys|
  {
    if m != map[] {
      MapNonEmptyHasKey(m);
      var k :| k in m.Keys;
      MapSumPick(m, k);
      assert (m - {k}).Keys == m.Keys - {k};
      MapSumNonNegative(m - {k});
    }
  }

  /** Non-negative counts that sum to zero are all zero. */
  lemma MapSumZero(m: map<real, int>, k: real)
    requires NonNegative(m) && MapSum(m) == 0
    ensures Get(m, k) == 0
  {
    if k in m {
      MapSumPick(m, k);
      MapSumNonNegative(m - {k});
    }
  }

  /* ---------- First pass: recorders and the span of scan starts ---------- */

  /** The recording antennas (each RECORD_START name, mapped to -1) and the scan range. */
  datatype Prescan = Prescan(recordStop: map<string, real>, scanRange: Interval)

  function PrescanEvent(st: Prescan, e: Event): Prescan
  {
    var recordStop := if e.kind == RecordStart then st.recordStop[e.name := -1.0] else st.recordStop;
    var r0 := st.scanRange;
    var r1 := if e.kind == ScanStart && (r0.mjdStart < 1.0 || e.mjd < r0.mjdStart) then r0.(mjdStart := e.mjd) else r0;
    var r2 := if e.kind == ScanStart && (r1.mjdStart < 1.0 || e.mjd > r1.mjdStop) then r1.(mjdStop := e.mjd) else r1;
    Prescan(recordStop, r2)
  }

  /** The first pass over a group's events, as a fold over them in order. */
  function PrescanOf(events: seq<Event>): Prescan
  {
    if events == [] then Prescan(map[], Interval(0.0, 0.0))
    else PrescanEvent(PrescanOf(events[..|events| - 1]), events[|events| - 1])
  }

  ghost predicate IsScanStartTime(events: seq<Event>, t: real)
  {
    exists e :: e in events && e.kind == ScanStart && e.mjd == t
  }

  /** The first pass knows every antenna that starts recording, each marked -1, and no other. */
  lemma {:induction false} PrescanRecorders(events: seq<Event>)
    ensures forall a :: a in PrescanOf(events).recordStop <==>
      exists e :: e in events && e.kind == RecordStart && e.name == a
    ensures forall a | a in PrescanOf(events).recordStop :: PrescanOf(events).recordStop[a] == -1.0
  {
    if events != [] {
      var init := events[..|events| - 1];
      PrescanRecorders(init);
      assert events == init + [events[|events| - 1]];
    }
  }

  /**
   * When every scan starts at mjd 1 or later, the scan range runs from the
   * earliest to the latest scan start (the stop test copies the start test, so
   * scan stops play no part); with no scan start it stays (0, 0).
   */
  lemma {:induction false} PrescanScanRange(events: seq<Event>)
    requires forall e | e in events && e.kind == ScanStart :: e.mjd >= 1.0
    ensures var r := PrescanOf(events).scanRange;
      && (r.mjdStart < 1.0 <==> forall e | e in events :: e.kind != ScanStart)
      && (r.mjdStart < 1.0 ==> r == Interval(0.0, 0.0))
      && (r.mjdStart >= 1.0 ==> IsScanStartTime(events, r.mjdStart) && IsScanStartTime(events, r.mjdStop))
      && (forall e | e in events && e.kind == ScanStart :: r.mjdStart <= e.mjd <= r.mjdStop)
  {
    if events != [] {
      var init := events[..|events| - 1];
      var e := events[|events| - 1];
      assert events == init + [e];
      PrescanScanRange(init);
      var r := PrescanOf(init).scanRange;
      if r.mjdStart >= 1.0 {
        var s :| s in init && s.kind == ScanStart && s.mjd == r.mjdStart;
        var t :| t in init && t.kind == ScanStart && t.mjd == r.mjdStop;
        assert s in events && t in events;
      }
    }
  }

  /** The first loop of genJobs. */
  method PrescanEvents(events: seq<Event>) returns (recordStop: map<string, real>, scanRange: Interval)
    ensures Prescan(recordStop, scanRange) == PrescanOf(events)
  {
    recordStop := map[];
    scanRange := Interval(0.0, 0.0);
    for i := 0 to |events|
      invariant Prescan(recordStop, scanRange) == PrescanOf(events[..i])
    {
      var e := events[i];
      assert events[..i + 1][..i] == events[..i];
      if e.kind == RecordStart {
        recordStop := recordStop[e.name := -1.0];
      }
      if e.kind == ScanStart && (scanRange.mjdStart < 1.0 || e.mjd < scanRange.mjdStart) {
        scanRange := scanRange.(mjdStart := e.mjd);
      }
      if e.kind == ScanStart && (scanRange.mjdStart < 1.0 || e.mjd > scanRange.mjdStop) {
        scanRange := scanRange.(mjdStop := e.mjd);
      }
    }
    assert events[..|events|] == events;
  }

  /* ---------- Second pass: candidate times, usage, clock breaks, media changes ---------- */

  /** The kinds of event that force a job boundary at their time. */
  predicate IsBreakKind(k: EventKind)
  {
    k == ClockBreak || k == LeapSecond || k == AntennaStart || k == AntennaStop || k == ManualBreak
  }

  /**
   * The second pass updates three independent groups of variables, each given
   * here by its own fold over the events: the timeline (the last distinct time
   * seen, the candidate break times and the number of antennas scanning at each
   * time), the recording (each antenna's last RECORD_STOP and the media changes
   * found) and the clock breaks (the count per time and the total).
   */
  datatype Timeline = Timeline(mjdLast: real, times: seq<real>, usage: map<real, int>)
  datatype Recording = Recording(recordStop: map<string, real>, changes: seq<MediaChange>)
  datatype Clocks = Clocks(clockBreaks: map<real, int>, nClockBreaks: int)
  datatype Tally = Tally(timeline: Timeline, recording: Recording, clocks: Clocks)

  /**
   * A time later than the last one (or the very first time, while the last is
   * still negative) becomes the last time, inherits the usage of the previous one
   * (or 0) and is a candidate break when it lies strictly inside the group; then
   * antenna scan starts and stops move the usage at their time.
   */
  function TimelineEvent(tl: Timeline, e: Event, range: Interval, env: Collab): Timeline
  {
    var advance := (tl.mjdLast > 0.0 && e.mjd > tl.mjdLast) || tl.mjdLast < 0.0;
    var times := if advance && env.containsAbsolutely(range, e.mjd) then tl.times + [e.mjd] else tl.times;
    var usage := if advance then tl.usage[e.mjd := if tl.mjdLast > 0.0 then Get(tl.usage, tl.mjdLast) else 0]
                 else tl.usage;
    Timeline(if advance then e.mjd else tl.mjdLast, times,
             if e.kind == AntScanStart then usage[e.mjd := Get(usage, e.mjd) + 1]
             else if e.kind == AntScanStop then usage[e.mjd := Get(usage, e.mjd) - 1]
             else usage)
  }

  /**
   * A RECORD_START is a media change when the antenna stopped recording at a
   * positive time and both that stop and this start lie strictly inside the
   * group, and the start strictly inside the scan range.
   */
  predicate IsMediaChange(recordStop: map<string, real>, e: Event, range: Interval, scanRange: Interval, env: Collab)
  {
    var stop := GetStop(recordStop, e.name);
    && e.kind == RecordStart
    && stop > 0.0 && env.containsAbsolutely(range, stop) && env.containsAbsolutely(range, e.mjd)
    && env.containsAbsolutely(scanRange, e.mjd)
  }

  /** A RECORD_STOP is remembered; a RECORD_START may log a media change. */
  function RecordingEvent(rc: Recording, e: Event, range: Interval, scanRange: Interval, env: Collab): Recording
  {
    Recording(if e.kind == RecordStop then rc.recordStop[e.name := e.mjd] else rc.recordStop,
              if IsMediaChange(rc.recordStop, e, range, scanRange, env)
              then rc.changes + [MediaChange(e.name, GetStop(rc.recordStop, e.name), e.mjd)]
              else rc.changes)
  }

  /** A break-kind event strictly inside the group counts as a clock break at its time. */
  function ClocksEvent(ck: Clocks, e: Event, range: Interval, env: Collab): Clocks
  {
    if IsBreakKind(e.kind) && env.containsAbsolutely(range, e.mjd) then
      Clocks(ck.clockBreaks[e.mjd := Get(ck.clockBreaks, e.mjd) + 1], ck.nClockBreaks + 1)
    else
      ck
  }

  function TimelineOf(events: seq<Event>, range: Interval, env: Collab): Timeline
  {
    if events == [] then Timeline(-1.0, [], map[])
    else TimelineEvent(TimelineOf(events[..|events| - 1], range, env), events[|events| - 1], range, env)
  }

  function RecordingOf(recordStop0: map<string, real>, events: seq<Event>, range: Interval, scanRange: Interval,
                       env: Collab): Recording
  {
    if events == [] then Recording(recordStop0, [])
    else RecordingEvent(RecordingOf(recordStop0, events[..|events| - 1], range, scanRange, env),
                        events[|events| - 1], range, scanRange, env)
  }

  function ClocksOf(events: seq<Event>, range: Interval, env: Collab): Clocks
  {
    if events == [] then Clocks(map[], 0)
    else ClocksEvent(ClocksOf(events[..|events| - 1], range, env), events[|events| - 1], range, env)
  }

  /** The second pass over a group's events, starting from the first pass's recorders. */
  function TallyOf(recordStop0: map<string, real>, events: seq<Event>, range: Interval, scanRange: Interval,
                   env: Collab): Tally
  {
    Tally(TimelineOf(events, range, env), RecordingOf(recordStop0, events, range, scanRange, env),
          ClocksOf(events, range, env))
  }

  /** One step of the second loop of genJobs, on the loop's variables. */
  method TallyStep(st: Tally, e: Event, range: Interval, scanRange: Interval, env: Collab) returns (t: Tally)
    ensures t == Tally(TimelineEvent(st.timeline, e, range, env),
                       RecordingEvent(st.recording, e, range, scanRange, env),
                       ClocksEvent(st.clocks, e, range, env))
  {
    var mjdLast, times, usage := st.timeline.mjdLast, st.timeline.times, st.timeline.usage;
    var recordStop, changes := st.recording.recordStop, st.recording.changes;
    var clockBreaks, nClockBreaks := st.clocks.clockBreaks, st.clocks.nClockBreaks;
    if mjdLast > 0.0 && e.mjd > mjdLast {
      usage := usage[e.mjd := Get(usage, mjdLast)];
      mjdLast := e.mjd;
      if env.containsAbsolutely(range, e.mjd) {
        times := times + [e.mjd];
      }
    } else if mjdLast < 0.0 {
      usage := usage[e.mjd := 0];
      mjdLast := e.mjd;
      if env.containsAbsolutely(range, e.mjd) {
        times := times + [e.mjd];
      }
    }
    if e.kind == RecordStart {
      if IsMediaChange(recordStop, e, range, scanRange, env) {
        changes := changes + [MediaChange(e.name, GetStop(recordStop, e.name), e.mjd)];
      }
    } else if e.kind == RecordStop {
      recordStop := recordStop[e.name := e.mjd];
    } else if e.kind == AntScanStart {
      usage := usage[e.mjd := Get(usage, e.mjd) + 1];
    } else if e.kind == AntScanStop {
      usage := usage[e.mjd := Get(usage, e.mjd) - 1];
    } else if IsBreakKind(e.kind) {
      if env.containsAbsolutely(range, e.mjd) {
        clockBreaks := clockBreaks[e.mjd := Get(clockBreaks, e.mjd) + 1];
        nClockBreaks := nClockBreaks + 1;
      }
    }
    t := Tally(Timeline(mjdLast, times, usage), Recording(recordStop, changes), Clocks(clockBreaks, nClockBreaks));
  }

  /** The second loop of genJobs. */
  method TallyEvents(recordStop0: map<string, real>, events: seq<Event>, range: Interval,
                     scanRange: Interval, env: Collab) returns (t: Tally)
    ensures t == TallyOf(recordStop0, events, range, scanRange, env)
  {
    t := Tally(Timeline(-1.0, [], map[]), Recording(recordStop0, []), Clocks(map[], 0));
    for i := 0 to |events|
      invariant t == TallyOf(recordStop0, events[..i], range, scanRange, env)
    {
      assert events[..i + 1][..i] == events[..i];
      t := TallyStep(t, events[i], range, scanRange, env);
    }
    assert events[..|events|] == events;
  }

  /** The clock-break total is the sum of the per-time counts, and no count is negative. */
  lemma {:induction false} ClocksSum(events: seq<Event>, range: Interval, env: Collab)
    ensures var ck := ClocksOf(events, range, env);
      ck.nClockBreaks == MapSum(ck.clockBreaks) && NonNegative(ck.clockBreaks)
  {
    if events != [] {
      var init := events[..|events| - 1];
      var e := events[|events| - 1];
      ClocksSum(init, range, env);
      var ck := ClocksOf(init, range, env);
      MapSumUpdate(ck.clockBreaks, e.mjd, Get(ck.clockBreaks, e.mjd) + 1);
    }
  }

  ghost predicate BreakEventAt(events: seq<Event>, k: real, range: Interval, env: Collab)
  {
    exists e :: e in events && IsBreakKind(e.kind) && e.mjd == k && env.containsAbsolutely(range, k)
  }

  /** A time has a positive clock-break count exactly when a break-kind event at that time lies inside the group. */
  lemma {:induction false} ClocksTimes(events: seq<Event>, range: Interval, env: Collab)
    ensures forall k :: Get(ClocksOf(events, range, env).clockBreaks, k) > 0 <==> BreakEventAt(events, k, range, env)
  {
    if events != [] {
      var init := events[..|events| - 1];
      var e := events[|events| - 1];
      assert events == init + [e];
      ClocksTimes(init, range, env);
      ClocksSum(init, range, env);
      var c0 := ClocksOf(init, range, env).clockBreaks;
      var c := ClocksOf(events, range, env).clockBreaks;
      var breakIn := IsBreakKind(e.kind) && env.containsAbsolutely(range, e.mjd);
      forall k
        ensures Get(c, k) > 0 <==> BreakEventAt(events, k, range, env)
      {
        if BreakEventAt(events, k, range, env) {
          var x :| x in events && IsBreakKind(x.kind) && x.mjd == k && env.containsAbsolutely(range, k);
          if x != e {
            assert x in init;
            assert BreakEventAt(init, k, range, env);
          }
        }
        if breakIn && k == e.mjd {
          assert e in events;
        } else if Get(c, k) > 0 {
          assert Get(c0, k) > 0;
          var x :| x in init && IsBreakKind(x.kind) && x.mjd == k && env.containsAbsolutely(range, k);
          assert x in events;
        }
      }
    }
  }

  /**
   * Every media change the second pass records runs from a RECORD_STOP of its
   * antenna to a later RECORD_START of it, starts at a positive time, lies
   * strictly inside the group and ends strictly inside the scan range.
   */
  lemma {:induction false} RecordingChanges(recordStop0: map<string, real>, events: seq<Event>,
                                            range: Interval, scanRange: Interval, env: Collab)
    requires forall a | a in recordStop0 :: recordStop0[a] <= 0.0
    ensures forall c | c in RecordingOf(recordStop0, events, range, scanRange, env).changes ::
      && 0.0 < c.mjdStart
      && env.containsAbsolutely(range, c.mjdStart) && env.containsAbsolutely(range, c.mjdStop)
      && env.containsAbsolutely(scanRange, c.mjdStop)
      && (exists e :: e in events && e.kind == RecordStop && e.name == c.antenna && e.mjd == c.mjdStart)
      && (exists e :: e in events && e.kind == RecordStart && e.name == c.antenna && e.mjd == c.mjdStop)
    ensures forall a | a in RecordingOf(recordStop0, events, range, scanRange, env).recordStop ::
      var v := RecordingOf(recordStop0, events, range, scanRange, env).recordStop[a];
      v <= 0.0 || exists e :: e in events && e.kind == RecordStop && e.name == a && e.mjd == v
  {
    if events != [] {
      var init := events[..|events| - 1];
      var e := events[|events| - 1];
      assert events == init + [e];
      RecordingChanges(recordStop0, init, range, scanRange, env);
    }
  }

  ghost predicate IncreasingTimes(s: seq<real>)
  {
    forall i, j :: 0 <= i < j < |s| ==> s[i] < s[j]
  }

  ghost predicate SortedByTime(events: seq<Event>)
  {
    forall i, j :: 0 <= i < j < |events| ==> events[i].mjd <= events[j].mjd
  }

  /**
   * With positive event times, the candidate break times come out strictly
   * increasing and none later than the last time seen, which is positive once
   * an event has been seen.
   */
  lemma {:induction false} TimelineOrder(events: seq<Event>, range: Interval, env: Collab)
    requires forall i | 0 <= i < |events| :: events[i].mjd > 0.0
    ensures var tl := TimelineOf(events, range, env);
      && IncreasingTimes(tl.times)
      && (|tl.times| > 0 ==> tl.times[|tl.times| - 1] <= tl.mjdLast)
      && (events == [] ==> tl.mjdLast == -1.0)
      && (events != [] ==> tl.mjdLast > 0.0)
  {
    if events != [] {
      var init := events[..|events| - 1];
      var e := events[|events| - 1];
      assert e.mjd > 0.0;
      TimelineOrder(init, range, env);
    }
  }

  /** Each candidate break time lies strictly inside the group and is the time of some event. */
  lemma {:induction false} TimelineInside(events: seq<Event>, range: Interval, env: Collab)
    ensures forall x | x in TimelineOf(events, range, env).times ::
      env.containsAbsolutely(range, x) && exists i :: 0 <= i < |events| && events[i].mjd == x
  {
    if events != [] {
      var init := events[..|events| - 1];
      var e := events[|events| - 1];
      TimelineInside(init, range, env);
      var t0 := TimelineOf(init, range, env);
      var t := TimelineOf(events, range, env);
      forall x | x in t.times
        ensures env.containsAbsolutely(range, x) && exists i :: 0 <= i < |events| && events[i].mjd == x
      {
        if x in t0.times {
          var i :| 0 <= i < |init| && init[i].mjd == x;
          assert events[i] == init[i];
        } else {
          assert events[|events| - 1].mjd == x;
        }
      }
    }
  }

  /** When the events are in time order, every event time strictly inside the group is a candidate. */
  lemma {:induction false} TimelineComplete(events: seq<Event>, range: Interval, env: Collab)
    requires forall i | 0 <= i < |events| :: events[i].mjd > 0.0
    requires SortedByTime(events) && events != []
    ensures var tl := TimelineOf(events, range, env);
      && tl.mjdLast == events[|events| - 1].mjd
      && forall i | 0 <= i < |events| && env.containsAbsolutely(range, events[i].mjd) :: events[i].mjd in tl.times
  {
    var init := events[..|events| - 1];
    var e := events[|events| - 1];
    var t0 := TimelineOf(init, range, env);
    var t := TimelineOf(events, range, env);
    if init != [] {
      assert SortedByTime(init);
      TimelineComplete(init, range, env);
      assert t0.mjdLast <= e.mjd;
      forall i | 0 <= i < |events| && env.containsAbsolutely(range, events[i].mjd)
        ensures events[i].mjd in t.times
      {
        if i < |init| {
          assert events[i] == init[i];
        }
      }
    }
  }

  /* ---------- Third part: placing breaks ---------- */

  /** What stays fixed while breaks are placed: the candidate times, the usage and the number of recorders. */
  datatype BreakCtx = BreakCtx(times: seq<real>, usage: map<real, int>, nAnt: int)

  /** A break at `t` resolves a media change when `t` lies in the change's gap, ends included. */
  predicate Covers(c: MediaChange, t: real)
  {
    c.mjdStart <= t && c.mjdStop >= t
  }

  /**
   * The score of a break at `t`: the number of media changes that `t` resolves,
   * weighted by one more than the number of recorders not scanning at `t`, plus
   * 100 per clock break at `t`.
   */
  function Score(t: real, changes: seq<MediaChange>, clockBreaks: map<real, int>, ctx: BreakCtx, env: Collab): int
  {
    env.nGap(changes, t) * (ctx.nAnt - Get(ctx.usage, t) + 1) + 100 * Get(clockBreaks, t)
  }

  /** The running (scoreBest, mjdBest) of the scoring loop after the given candidates. */
  function BestOf(times: seq<real>, changes: seq<MediaChange>, clockBreaks: map<real, int>,
                  ctx: BreakCtx, env: Collab, mjdPrev: real): (int, real)
  {
    if times == [] then (-1, mjdPrev)
    else
      var prev := BestOf(times[..|times| - 1], changes, clockBreaks, ctx, env, mjdPrev);
      var t := times[|times| - 1];
      var score := Score(t, changes, clockBreaks, ctx, env);
      if score > prev.0 then (score, t) else prev
  }

  /**
   * The scoring loop picks the first candidate of highest score when some score
   * exceeds -1, and otherwise keeps the previous best time.
   */
  lemma {:induction false} BestIsFirstMax(times: seq<real>, changes: seq<MediaChange>, clockBreaks: map<real, int>,
                                          ctx: BreakCtx, env: Collab, mjdPrev: real)
    ensures var best := BestOf(times, changes, clockBreaks, ctx, env, mjdPrev);
      && best.0 >= -1
      && (forall j | 0 <= j < |times| :: Score(times[j], changes, clockBreaks, ctx, env) <= best.0)
      && ((forall j | 0 <= j < |times| :: Score(times[j], changes, clockBreaks, ctx, env) <= -1) ==>
            best == (-1, mjdPrev))
      && ((exists j :: 0 <= j < |times| && Score(times[j], changes, clockBreaks, ctx, env) > -1) ==>
            exists i :: 0 <= i < |times| && best == (Score(times[i], changes, clockBreaks, ctx, env), times[i])
              && forall j | 0 <= j < i :: Score(times[j], changes, clockBreaks, ctx, env) < best.0)
  {
    if times != [] {
      var init := times[..|times| - 1];
      BestIsFirstMax(init, changes, clockBreaks, ctx, env, mjdPrev);
      var prev := BestOf(init, changes, clockBreaks, ctx, env, mjdPrev);
      var t := times[|times| - 1];
      var score := Score(t, changes, clockBreaks, ctx, env);
      var best := BestOf(times, changes, clockBreaks, ctx, env, mjdPrev);
      assert forall j | 0 <= j < |init| :: times[j] == init[j];
      if score > prev.0 {
        assert best == (score, times[|times| - 1]);
      } else if exists j :: 0 <= j < |times| && Score(times[j], changes, clockBreaks, ctx, env) > -1 {
        var j :| 0 <= j < |times| && Score(times[j], changes, clockBreaks, ctx, env) > -1;
        if j == |times| - 1 {
          assert prev.0 > -1;
        }
        assert exists j :: 0 <= j < |init| && Score(init[j], changes, clockBreaks, ctx, env) > -1;
        var i :| 0 <= i < |init| && prev == (Score(init[i], changes, clockBreaks, ctx, env), init[i])
              && forall j | 0 <= j < i :: Score(init[j], changes, clockBreaks, ctx, env) < prev.0;
        assert best == (Score(times[i], changes, clockBreaks, ctx, env), times[i]);
      }
    }
  }

  /** The scoring loop of genJobs. */
  method PickBest(times: seq<real>, changes: seq<MediaChange>, clockBreaks: map<real, int>,
                  ctx: BreakCtx, env: Collab, mjdPrev: real) returns (mjdBest: real)
    ensures mjdBest == BestOf(times, changes, clockBreaks, ctx, env, mjdPrev).1
  {
    var scoreBest := -1;
    mjdBest := mjdPrev;
    for i := 0 to |times|
      invariant (scoreBest, mjdBest) == BestOf(times[..i], changes, clockBreaks, ctx, env, mjdPrev)
    {
      assert times[..i + 1][..i] == times[..i];
      var score := env.nGap(changes, times[i]) * (ctx.nAnt - Get(ctx.usage, times[i]) + 1)
                   + 100 * Get(clockBreaks, times[i]);
      if score > scoreBest {
        scoreBest := score;
        mjdBest := times[i];
      }
    }
    assert times[..|times|] == times;
  }

  /** The media changes a break at `t` leaves unresolved, in their order. */
  function Uncovered(changes: seq<MediaChange>, t: real): seq<MediaChange>
  {
    if changes == [] then []
    else
      var c := changes[|changes| - 1];
      Uncovered(changes[..|changes| - 1], t) + (if Covers(c, t) then [] else [c])
  }

  /** A change survives a break at `t` exactly when it was pending and `t` is outside its gap. */
  lemma {:induction false} UncoveredMembers(changes: seq<MediaChange>, t: real)
    ensures forall c :: c in Uncovered(changes, t) <==> c in changes && !Covers(c, t)
  {
    if changes != [] {
      var init := changes[..|changes| - 1];
      UncoveredMembers(init, t);
      assert changes == init + [changes[|changes| - 1]];
    }
  }

  /** With no change covering `t`, nothing is removed. */
  lemma {:induction false} UncoveredNone(changes: seq<MediaChange>, t: real)
    requires forall c | c in changes :: !Covers(c, t)
    ensures Uncovered(changes, t) == changes
  {
    if changes != [] {
      var init := changes[..|changes| - 1];
      assert changes == init + [changes[|changes| - 1]];
      UncoveredNone(init, t);
    }
  }

  /** The loop that erases from the list of media changes every change a break at `t` resolves. */
  method RemoveCovering(changes0: seq<MediaChange>, t: real) returns (changes: seq<MediaChange>)
    ensures changes == Uncovered(changes0, t)
  {
    changes := changes0;
    var i := 0;
    ghost var j := 0;
    while i < |changes|
      invariant 0 <= i <= |changes| && 0 <= j <= |changes0|
      invariant changes[..i] == Uncovered(changes0[..j], t)
      invariant changes[i..] == changes0[j..]
      decreases |changes| - i
    {
      assert changes0[j] == changes[i];
      assert changes0[..j + 1][..j] == changes0[..j];
      assert changes[i + 1..] == changes0[j + 1..];
      if changes[i].mjdStart <= t && changes[i].mjdStop >= t {
        changes := changes[..i] + changes[i + 1..];
        assert changes[i..] == changes0[j + 1..];
      } else {
        i := i + 1;
      }
      j := j + 1;
    }
    assert changes0[..j] == changes0;
    assert changes[..i] == changes;
  }

  /**
   * The state of the break placement: the unresolved media changes, the clock
   * breaks per time and their total, the breaks placed so far and the last best
   * time (which the next round keeps when no candidate scores above -1).
   */
  datatype Placement = Placement(changes: seq<MediaChange>, clockBreaks: map<real, int>, nClockBreaks: int,
                                 breaks: seq<real>, mjdBest: real)

  /** One round: break at the best time, clear its clock breaks, drop the changes it resolves. */
  function Step(st: Placement, ctx: BreakCtx, env: Collab): Placement
  {
    var best := BestOf(ctx.times, st.changes, st.clockBreaks, ctx, env, st.mjdBest).1;
    Placement(Uncovered(st.changes, best), st.clockBreaks[best := 0],
              st.nClockBreaks - Get(st.clockBreaks, best), st.breaks + [best], best)
  }

  predicate Pending(st: Placement)
  {
    |st.changes| > 0 || st.nClockBreaks > 0
  }

  /**
   * The placement loop from round `nLoop` on: it ends when nothing is pending,
   * and gives up (the program exits) when round `limit + 1` would start.
   */
  function Settle(st: Placement, ctx: BreakCtx, env: Collab, nLoop: nat, limit: nat): Outcome<Placement>
    requires nLoop <= limit + 1
    decreases limit + 1 - nLoop
  {
    if !Pending(st) then Converged(st)
    else if nLoop + 1 > limit then Aborted
    else Settle(Step(st, ctx, env), ctx, env, nLoop + 1, limit)
  }

  /** The break placement loop of genJobs. */
  method PlaceBreaks(st0: Placement, ctx: BreakCtx, env: Collab, limit: nat) returns (r: Outcome<Placement>)
    ensures r == Settle(st0, ctx, env, 0, limit)
  {
    var changes, clockBreaks, nClockBreaks := st0.changes, st0.clockBreaks, st0.nClockBreaks;
    var breaks, mjdBest := st0.breaks, st0.mjdBest;
    var nLoop: nat := 0;
    while |changes| > 0 || nClockBreaks > 0
      invariant nLoop <= limit
      invariant Settle(st0, ctx, env, 0, limit)
             == Settle(Placement(changes, clockBreaks, nClockBreaks, breaks, mjdBest), ctx, env, nLoop, limit)
      decreases limit - nLoop
    {
      nLoop := nLoop + 1;
      if nLoop > limit {
        return Aborted;
      }
      mjdBest := PickBest(ctx.times, changes, clockBreaks, ctx, env, mjdBest);
      breaks := breaks + [mjdBest];
      nClockBreaks := nClockBreaks - Get(clockBreaks, mjdBest);
      clockBreaks := clockBreaks[mjdBest := 0];
      changes := RemoveCovering(changes, mjdBest);
    }
    return Converged(Placement(changes, clockBreaks, nClockBreaks, breaks, mjdBest));
  }

  /**
   * What the placement keeps relative to its start: the total is the sum of the
   * non-negative clock-break counts, every clock break at the start is still
   * counted or has a break at its time, every media change at the start is still
   * pending or holds a break, and earlier breaks stay.
   */
  ghost predicate Tracks(st0: Placement, st: Placement)
  {
    && st.nClockBreaks == MapSum(st.clockBreaks) && NonNegative(st.clockBreaks)
    && (forall k | Get(st0.clockBreaks, k) > 0 :: Get(st.clockBreaks, k) > 0 || k in st.breaks)
    && (forall c | c in st0.changes :: c in st.changes || exists b :: b in st.breaks && Covers(c, b))
    && st0.breaks <= st.breaks
  }

  lemma StepTracks(st0: Placement, st: Placement, ctx: BreakCtx, env: Collab)
    requires Tracks(st0, st)
    ensures Tracks(st0, Step(st, ctx, env))
  {
    var next := Step(st, ctx, env);
    var best := next.mjdBest;
    MapSumUpdate(st.clockBreaks, best, 0);
    UncoveredMembers(st.changes, best);
    assert best in next.breaks;
    forall c | c in st0.changes
      ensures c in next.changes || exists b :: b in next.breaks && Covers(c, b)
    {
      if c !in st.changes {
        var b :| b in st.breaks && Covers(c, b);
        assert b in next.breaks;
      }
    }
    forall k | Get(st0.clockBreaks, k) > 0
      ensures Get(next.clockBreaks, k) > 0 || k in next.breaks
    {
      if k in st.breaks {
        assert k in next.breaks;
      }
    }
  }

  /**
   * A placement that converges leaves nothing pending, keeps what it tracks,
   * and places at most one break per round left.
   */
  lemma {:induction false} SettleTracks(st0: Placement, st: Placement, ctx: BreakCtx, env: Collab, nLoop: nat, limit: nat)
    requires nLoop <= limit && Tracks(st0, st)
    requires Settle(st, ctx, env, nLoop, limit).Converged?
    ensures var fin := Settle(st, ctx, env, nLoop, limit).value;
      && Tracks(st0, fin) && fin.changes == [] && fin.nClockBreaks == 0
      && |fin.breaks| <= |st.breaks| + (limit - nLoop)
    decreases limit - nLoop
  {
    if Pending(st) {
      StepTracks(st0, st, ctx, env);
      SettleTracks(st0, Step(st, ctx, env), ctx, env, nLoop + 1, limit);
    } else {
      MapSumNonNegative(st.clockBreaks);
    }
  }

  /**
   * When the placement converges, every time that held a clock break is a
   * break, every media change holds a break, and at most `limit` breaks were added.
   */
  lemma SettledPlacesEveryBreak(st0: Placement, ctx: BreakCtx, env: Collab, limit: nat)
    requires st0.nClockBreaks == MapSum(st0.clockBreaks) && NonNegative(st0.clockBreaks)
    requires Settle(st0, ctx, env, 0, limit).Converged?
    ensures var fin := Settle(st0, ctx, env, 0, limit).value;
      && (forall k | Get(st0.clockBreaks, k) > 0 :: k in fin.breaks)
      && (forall c | c in st0.changes :: exists b :: b in fin.breaks && Covers(c, b))
      && st0.breaks <= fin.breaks && |fin.breaks| <= |st0.breaks| + limit
  {
    SettleTracks(st0, st0, ctx, env, 0, limit);
    var fin := Settle(st0, ctx, env, 0, limit).value;
    forall k | Get(st0.clockBreaks, k) > 0
      ensures k in fin.breaks
    {
      MapSumZero(fin.clockBreaks, k);
    }
  }

  /**
   * With no candidate times, a round breaks at the previous best time again; if
   * no pending media change holds that time the rounds repeat until the loop
   * gives up, so the guard against non-convergence is reachable.
   */
  lemma {:induction false} StuckAborts(st: Placement, ctx: BreakCtx, env: Collab, nLoop: nat, limit: nat)
    requires nLoop <= limit + 1
    requires ctx.times == [] && |st.changes| > 0
    requires forall c | c in st.changes :: !Covers(c, st.mjdBest)
    ensures Settle(st, ctx, env, nLoop, limit) == Aborted
    decreases limit + 1 - nLoop
  {
    if nLoop + 1 <= limit {
      UncoveredNone(st.changes, st.mjdBest);
      StuckAborts(Step(st, ctx, env), ctx, env, nLoop + 1, limit);
    }
  }

  /* ---------- Last part: sorting the breaks and cutting the group ---------- */

  ghost predicate SortedTimes(s: seq<real>)
  {
    forall i, j :: 0 <= i < j < |s| ==> s[i] <= s[j]
  }

  function Insert(x: real, s: seq<real>): seq<real>
  {
    if s == [] || x <= s[0] then [x] + s else [s[0]] + Insert(x, s[1..])
  }

  /** The breaks in ascending order (std::list::sort). */
  function SortAscending(s: seq<real>): seq<real>
  {
    if s == [] then [] else Insert(s[0], SortAscending(s[1..]))
  }

  lemma {:induction false} InsertPermutes(x: real, s: seq<real>)
    ensures multiset(Insert(x, s)) == multiset{x} + multiset(s)
    decreases |s|
  {
    if s != [] && x > s[0] {
      InsertPermutes(x, s[1..]);
      assert s == [s[0]] + s[1..];
    }
  }

  lemma {:induction false} InsertAbove(x: real, s: seq<real>, lo: real)
    requires lo <= x && forall k | 0 <= k < |s| :: lo <= s[k]
    ensures forall k | 0 <= k < |Insert(x, s)| :: lo <= Insert(x, s)[k]
    decreases |s|
  {
    if s != [] && x > s[0] {
      InsertAbove(x, s[1..], lo);
    }
  }

  lemma {:induction false} InsertSorted(x: real, s: seq<real>)
    requires SortedTimes(s)
    ensures SortedTimes(Insert(x, s))
    decreases |s|
  {
    if s != [] && x > s[0] {
      InsertSorted(x, s[1..]);
      InsertAbove(x, s[1..], s[0]);
    }
  }

  /** Sorting yields the same breaks in ascending order. */
  lemma {:induction false} SortAscendingCorrect(s: seq<real>)
    ensures SortedTimes(SortAscending(s))
    ensures multiset(SortAscending(s)) == multiset(s)
  {
    if s != [] {
      SortAscendingCorrect(s[1..]);
      InsertSorted(s[0], SortAscending(s[1..]));
      InsertPermutes(s[0], SortAscending(s[1..]));
      assert s == [s[0]] + s[1..];
    }
  }

  /** The pieces of the group: from `start` to the first break, then from break to break. */
  function Cuts(start: real, bs: seq<real>): seq<Interval>
    decreases |bs|
  {
    if bs == [] then [] else [Interval(start, bs[0])] + Cuts(bs[0], bs[1..])
  }

  /** Piece `i` runs from the break before it (or `start`) to break `i`. */
  lemma {:induction false} CutsTile(start: real, bs: seq<real>)
    ensures |Cuts(start, bs)| == |bs|
    ensures forall i | 0 <= i < |bs| :: Cuts(start, bs)[i] == Interval(if i == 0 then start else bs[i - 1], bs[i])
    decreases |bs|
  {
    if bs != [] {
      CutsTile(bs[0], bs[1..]);
      forall i | 1 <= i < |bs|
        ensures Cuts(start, bs)[i] == Interval(bs[i - 1], bs[i])
      {
        assert Cuts(start, bs)[i] == Cuts(bs[0], bs[1..])[i - 1];
      }
    }
  }

  function TotalDuration(ivs: seq<Interval>): real
  {
    if ivs == [] then 0.0 else Duration(ivs[0]) + TotalDuration(ivs[1..])
  }

  /** The pieces add up to the time from `start` to the last break. */
  lemma {:induction false} CutsSpan(start: real, bs: seq<real>)
    requires |bs| > 0
    ensures TotalDuration(Cuts(start, bs)) == bs[|bs| - 1] - start
    decreases |bs|
  {
    if |bs| > 1 {
      CutsSpan(bs[0], bs[1..]);
    }
  }

  /** The jobs made of one piece: none when it is not longer than the minimum job length. */
  function PieceJobs(jg: JobGroup, piece: Interval, p: CorrParams, env: Collab): seq<Job>
  {
    if Duration(piece) > p.minLength then env.createJobs(jg, piece, p.maxLength, p.maxSize) else []
  }

  function JobsOf(jg: JobGroup, pieces: seq<Interval>, p: CorrParams, env: Collab): seq<Job>
  {
    if pieces == [] then [] else PieceJobs(jg, pieces[0], p, env) + JobsOf(jg, pieces[1..], p, env)
  }

  /** Every job comes from a piece longer than the minimum job length. */
  lemma {:induction false} JobsFromLongPieces(jg: JobGroup, pieces: seq<Interval>, p: CorrParams, env: Collab)
    ensures forall j | j in JobsOf(jg, pieces, p, env) ::
      exists c :: c in pieces && Duration(c) > p.minLength && j in env.createJobs(jg, c, p.maxLength, p.maxSize)
  {
    if pieces != [] {
      JobsFromLongPieces(jg, pieces[1..], p, env);
      forall j | j in JobsOf(jg, pieces, p, env)
        ensures exists c :: c in pieces && Duration(c) > p.minLength && j in env.createJobs(jg, c, p.maxLength, p.maxSize)
      {
        if j !in PieceJobs(jg, pieces[0], p, env) {
          assert j in JobsOf(jg, pieces[1..], p, env);
          var c :| c in pieces[1..] && Duration(c) > p.minLength && j in env.createJobs(jg, c, p.maxLength, p.maxSize);
          assert c in pieces;
        }
      }
    }
  }

  /** The job-forming loop of genJobs. */
  method FormJobs(jg: JobGroup, breaks: seq<real>, p: CorrParams, env: Collab) returns (jobs: seq<Job>)
    ensures jobs == JobsOf(jg, Cuts(jg.range.mjdStart, breaks), p, env)
  {
    jobs := [];
    var start := jg.range.mjdStart;
    for i := 0 to |breaks|
      invariant jobs + JobsOf(jg, Cuts(start, breaks[i..]), p, env) == JobsOf(jg, Cuts(jg.range.mjdStart, breaks), p, env)
    {
      assert breaks[i..][1..] == breaks[i + 1..];
      var jobTimeRange := Interval(start, breaks[i]);
      if Duration(jobTimeRange) > p.minLength {
        jobs := jobs + env.createJobs(jg, jobTimeRange, p.maxLength, p.maxSize);
      }
      start := breaks[i];
    }
  }

  /* ---------- genJobs ---------- */

  function ScanRangeOf(jg: JobGroup, p: CorrParams, env: Collab): Interval
  {
    env.logicalAnd(PrescanOf(jg.events).scanRange, p.window)
  }

  function GroupTally(jg: JobGroup, p: CorrParams, env: Collab): Tally
  {
    TallyOf(PrescanOf(jg.events).recordStop, jg.events, jg.range, ScanRangeOf(jg, p, env), env)
  }

  function GroupCtx(jg: JobGroup, p: CorrParams, env: Collab): BreakCtx
  {
    var t := GroupTally(jg, p, env);
    BreakCtx(t.timeline.times, t.timeline.usage, |PrescanOf(jg.events).recordStop|)
  }

  function GroupPlacement(jg: JobGroup, p: CorrParams, env: Collab): Placement
  {
    var t := GroupTally(jg, p, env);
    Placement(t.recording.changes, t.clocks.clockBreaks, t.clocks.nClockBreaks, [], 0.0)
  }

  /** The number of placement rounds genJobs allows before it gives up. */
  function RoundLimit(jg: JobGroup): nat
  {
    |jg.events| + 3
  }

  /**
   * genJobs: the group's jobs, or Aborted when the break placement does not
   * converge within the allowed rounds.
   */
  function GenJobsOf(jg: JobGroup, p: CorrParams, env: Collab): Outcome<seq<Job>>
  {
    match Settle(GroupPlacement(jg, p, env), GroupCtx(jg, p, env), env, 0, RoundLimit(jg))
    case Aborted => Aborted
    case Converged(fin) =>
      Converged(JobsOf(jg, Cuts(jg.range.mjdStart, SortAscending(fin.breaks) + [jg.range.mjdStop]), p, env))
  }

  method GenJobs(jg: JobGroup, p: CorrParams, env: Collab) returns (r: Outcome<seq<Job>>)
    ensures r == GenJobsOf(jg, p, env)
  {
    var recordStop, scanRange := PrescanEvents(jg.events);
    var nAnt := |recordStop|;
    scanRange := env.logicalAnd(scanRange, p.window);
    var t := TallyEvents(recordStop, jg.events, jg.range, scanRange, env);
    var placed := PlaceBreaks(Placement(t.recording.changes, t.clocks.clockBreaks, t.clocks.nClockBreaks, [], 0.0),
                              BreakCtx(t.timeline.times, t.timeline.usage, nAnt), env, |jg.events| + 3);
    if placed.Aborted? {
      return Aborted;
    }
    var breaks := SortAscending(placed.value.breaks) + [jg.range.mjdStop];
    var jobs := FormJobs(jg, breaks, p, env);
    return Converged(jobs);
  }

  /**
   * When genJobs converges, its jobs are those of the group cut at sorted breaks
   * followed by the group's stop; every break-kind event strictly inside the
   * group and every media change lies on or holds one of those breaks; and at
   * most nEvent + 3 breaks are placed.
   */
  lemma GenJobsBoundaries(jg: JobGroup, p: CorrParams, env: Collab)
    requires GenJobsOf(jg, p, env).Converged?
    ensures var fin := Settle(GroupPlacement(jg, p, env), GroupCtx(jg, p, env), env, 0, RoundLimit(jg)).value;
      var bs := SortAscending(fin.breaks);
      && GenJobsOf(jg, p, env).value == JobsOf(jg, Cuts(jg.range.mjdStart, bs + [jg.range.mjdStop]), p, env)
      && SortedTimes(bs) && |bs| <= |jg.events| + 3
      && (forall e | e in jg.events && IsBreakKind(e.kind) && env.containsAbsolutely(jg.range, e.mjd) :: e.mjd in bs)
      && (forall c | c in GroupTally(jg, p, env).recording.changes :: exists b :: b in bs && Covers(c, b))
  {
    var recordStop0 := PrescanOf(jg.events).recordStop;
    var scanRange := ScanRangeOf(jg, p, env);
    var st0 := GroupPlacement(jg, p, env);
    ClocksSum(jg.events, jg.range, env);
    ClocksTimes(jg.events, jg.range, env);
    SettledPlacesEveryBreak(st0, GroupCtx(jg, p, env), env, RoundLimit(jg));
    var fin := Settle(st0, GroupCtx(jg, p, env), env, 0, RoundLimit(jg)).value;
    SortAscendingCorrect(fin.breaks);
    var bs := SortAscending(fin.breaks);
    assert |bs| == |multiset(bs)| == |multiset(fin.breaks)| == |fin.breaks|;
    forall e | e in jg.events && IsBreakKind(e.kind) && env.containsAbsolutely(jg.range, e.mjd)
      ensures e.mjd in bs
    {
      assert BreakEventAt(jg.events, e.mjd, jg.range, env);
      assert e.mjd in multiset(fin.breaks);
    }
    forall c | c in st0.changes
      ensures exists b :: b in bs && Covers(c, b)
    {
      var b :| b in fin.breaks && Covers(c, b);
      assert b in multiset(bs);
    }
  }

  /** With no media change and no clock break, the whole group is the one piece. */
  lemma NothingToBreak(jg: JobGroup, p: CorrParams, env: Collab)
    requires GroupTally(jg, p, env).recording.changes == [] && GroupTally(jg, p, env).clocks.nClockBreaks == 0
    ensures GenJobsOf(jg, p, env) == Converged(PieceJobs(jg, jg.range, p, env))
  {
    var st0 := GroupPlacement(jg, p, env);
    assert Settle(st0, GroupCtx(jg, p, env), env, 0, RoundLimit(jg)) == Converged(st0);
    assert SortAscending(st0.breaks) + [jg.range.mjdStop] == [jg.range.mjdStop];
    assert GenJobsOf(jg, p, env) == Converged(JobsOf(jg, Cuts(jg.range.mjdStart, [jg.range.mjdStop]), p, env));
    assert Cuts(jg.range.mjdStart, [jg.range.mjdStop]) == [jg.range];
    assert JobsOf(jg, [jg.range], p, env) == PieceJobs(jg, jg.range, p, env) + [];
    assert PieceJobs(jg, jg.range, p, env) + [] == PieceJobs(jg, jg.range, p, env);
  }
}
