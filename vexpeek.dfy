/**
 * vexpeek: a summary printer for a vex schedule. It lists each station's
 * observing span (with its data format and disk usage on request), the
 * modules used, the scans with the stations in each, and checks that the
 * named file looks like vex before loading it. The loaded schedule is a
 * value (`PeekData`); what is printed is returned as `Section` values.
 */
module VexPeek {
  import opened Common
  import opened Intervals

  /** What the mode and setup lookup for a (mode, station) pair finds. */
  datatype SetupLookup = NoMode | NoSetup | Found(rateMbps: real, format: string)

  /** A recorded baseband file or module of a station. */
  datatype Baseband = Baseband(filename: string, mjdStart: real, mjdStop: real)

  /** A scan: its names and the stations taking part, each with its time range, in station-name order. */
  datatype PeekScan = PeekScan(defName: string, sourceDefName: string, modeDefName: string,
                               stations: seq<(string, Interval)>)

  /** The loaded schedule, with the lookups the printer uses. */
  datatype PeekData = PeekData(
    experName: string,
    scans: seq<PeekScan>,
    setupOf: (string, string) -> SetupLookup,   // mode by name, then that mode's setup for a station
    vsns: string -> seq<Baseband>,              // a station's recorded modules
    obsStart: real,
    obsStop: real)

  /* ---------- Station visits ---------- */

  /** One station's part in one scan, with the scan's mode. */
  datatype Visit = Visit(name: string, iv: Interval, mode: string)

  function VisitsOf(scan: PeekScan): (r: seq<Visit>)
    ensures |r| == |scan.stations|
  {
    seq(|scan.stations|, i requires 0 <= i < |scan.stations| =>
      Visit(scan.stations[i].0, scan.stations[i].1, scan.modeDefName))
  }

  /** Every station visit of the scans, scan by scan, in station order within a scan. */
  function Visits(scans: seq<PeekScan>): seq<Visit>
  {
    if scans == [] then [] else Visits(scans[..|scans| - 1]) + VisitsOf(scans[|scans| - 1])
  }

  /** The station names of the visits, in order. */
  function Names(visits: seq<Visit>): (r: seq<string>)
    ensures |r| == |visits| && forall i | 0 <= i < |visits| :: r[i] == visits[i].name
  {
    seq(|visits|, i requires 0 <= i < |visits| => visits[i].name)
  }

  /* ---------- The per-station span (antennaSummary, moduleSummary) ---------- */

  /** A station's span grown by one visit: a first visit sets it, a later one widens it. */
  function HullStep(hulls: map<string, Interval>, v: Visit): map<string, Interval>
  {
    if v.name !in hulls then hulls[v.name := v.iv]
    else
      var h := hulls[v.name];
      hulls[v.name := Interval(if v.iv.mjdStart < h.mjdStart then v.iv.mjdStart else h.mjdStart,
                               if v.iv.mjdStop > h.mjdStop then v.iv.mjdStop else h.mjdStop)]
  }

  /** The spans after the visits, starting from no station. */
  function Hulls(visits: seq<Visit>): map<string, Interval>
  {
    if visits == [] then map[] else HullStep(Hulls(visits[..|visits| - 1]), visits[|visits| - 1])
  }

  /** A station's format is recorded at its first visit, when its mode and setup are found. */
  function FormatStep(hulls: map<string, Interval>, formats: map<string, string>, v: Visit,
                      setupOf: (string, string) -> SetupLookup): map<string, string>
  {
    if v.name in hulls then formats
    else
      match setupOf(v.mode, v.name)
      case Found(_, fmt) => formats[v.name := fmt]
      case _ => formats
  }

  /** The formats after the visits. */
  function Formats(visits: seq<Visit>, setupOf: (string, string) -> SetupLookup): map<string, string>
  {
    if visits == [] then map[]
    else
      var n := |visits| - 1;
      FormatStep(Hulls(visits[..n]), Formats(visits[..n], setupOf), visits[n], setupOf)
  }

  /** The stations with a span are exactly the stations visited. */
  lemma {:induction false} HullsDomain(visits: seq<Visit>)
    ensures forall n :: n in Hulls(visits) <==> n in Names(visits)
  {
    if visits != [] {
      var k := |visits| - 1;
      HullsDomain(visits[..k]);
      assert Names(visits) == Names(visits[..k]) + [visits[k].name];
    }
  }

  /** Each station's span starts no later and stops no earlier than any of its visits. */
  lemma {:induction false} HullsCover(visits: seq<Visit>)
    ensures forall i | 0 <= i < |visits| ::
      visits[i].name in Hulls(visits)
      && Hulls(visits)[visits[i].name].mjdStart <= visits[i].iv.mjdStart
      && Hulls(visits)[visits[i].name].mjdStop >= visits[i].iv.mjdStop
  {
    if visits != [] {
      var k := |visits| - 1;
      HullsCover(visits[..k]);
      forall i | 0 <= i < k
        ensures visits[i].name in Hulls(visits)
          && Hulls(visits)[visits[i].name].mjdStart <= visits[i].iv.mjdStart
          && Hulls(visits)[visits[i].name].mjdStop >= visits[i].iv.mjdStop
      {
        assert visits[..k][i] == visits[i];
      }
    }
  }

  /** Each station's span starts at the start of one of its visits and stops at the stop of one. */
  lemma {:induction false} HullsAttained(visits: seq<Visit>)
    ensures forall n | n in Hulls(visits) ::
      (exists i | 0 <= i < |visits| :: visits[i].name == n && visits[i].iv.mjdStart == Hulls(visits)[n].mjdStart)
      && (exists j | 0 <= j < |visits| :: visits[j].name == n && visits[j].iv.mjdStop == Hulls(visits)[n].mjdStop)
  {
    if visits != [] {
      var k := |visits| - 1;
      var pre := visits[..k];
      HullsAttained(pre);
      forall n | n in Hulls(visits)
        ensures (exists i | 0 <= i < |visits| :: visits[i].name == n && visits[i].iv.mjdStart == Hulls(visits)[n].mjdStart)
          && (exists j | 0 <= j < |visits| :: visits[j].name == n && visits[j].iv.mjdStop == Hulls(visits)[n].mjdStop)
      {
        var h := Hulls(visits)[n];
        if n in Hulls(pre) {
          var i :| 0 <= i < k && pre[i].name == n && pre[i].iv.mjdStart == Hulls(pre)[n].mjdStart;
          var j :| 0 <= j < k && pre[j].name == n && pre[j].iv.mjdStop == Hulls(pre)[n].mjdStop;
          assert pre[i] == visits[i] && pre[j] == visits[j];
          if h.mjdStart != Hulls(pre)[n].mjdStart {
            assert visits[k].iv.mjdStart == h.mjdStart;
          }
          if h.mjdStop != Hulls(pre)[n].mjdStop {
            assert visits[k].iv.mjdStop == h.mjdStop;
          }
        } else {
          assert visits[k].name == n && visits[k].iv == h;
        }
      }
    }
  }

  /** The mode of a station's first visit. */
  function FirstMode(visits: seq<Visit>, n: string): string
    requires n in Names(visits)
  {
    visits[IndexOf(Names(visits), n)].mode
  }

  /**
   * A station has a format exactly when the mode and setup of its first
   * visit are found, and the format is that setup's: later visits never
   * change it.
   */
  lemma {:induction false} FormatsFromFirst(visits: seq<Visit>, setupOf: (string, string) -> SetupLookup)
    ensures forall n :: n in Formats(visits, setupOf) <==> n in Names(visits) && setupOf(FirstMode(visits, n), n).Found?
    ensures forall n | n in Formats(visits, setupOf) :: Formats(visits, setupOf)[n] == setupOf(FirstMode(visits, n), n).format
  {
    if visits != [] {
      var k := |visits| - 1;
      var pre := visits[..k];
      var v := visits[k];
      FormatsFromFirst(pre, setupOf);
      HullsDomain(pre);
      assert Names(visits) == Names(pre) + [v.name];
      forall n | n in Names(pre) ensures FirstMode(visits, n) == FirstMode(pre, n) {
        IndexOfExtend(Names(pre), [v.name], n);
        assert visits[IndexOf(Names(pre), n)] == pre[IndexOf(Names(pre), n)];
      }
      if v.name !in Names(pre) {
        IndexOfUnique(Names(visits), v.name, k);
      }
    }
  }

  /* ---------- Disk usage (totalDiskUsageGB) ---------- */

  /** The time range of a station in a scan's station list, if it takes part. */
  function StationInterval(stations: seq<(string, Interval)>, ant: string): Option<Interval>
  {
    if stations == [] then None
    else if stations[0].0 == ant then Some(stations[0].1)
    else StationInterval(stations[1..], ant)
  }

  /** A scan counts toward a station's disk usage when the station takes part and its mode and setup are found. */
  predicate Counted(scan: PeekScan, ant: string, setupOf: (string, string) -> SetupLookup)
  {
    StationInterval(scan.stations, ant).Some? && setupOf(scan.modeDefName, ant).Found?
  }

  /** Gigabytes a scan adds for a station: data rate in Mbit/s times seconds, over 8000. */
  function ScanGB(scan: PeekScan, ant: string, setupOf: (string, string) -> SetupLookup): real
  {
    if Counted(scan, ant, setupOf)
    then setupOf(scan.modeDefName, ant).rateMbps * DurationSeconds(StationInterval(scan.stations, ant).value) / 8000.0
    else 0.0
  }

  function DiskGB(scans: seq<PeekScan>, ant: string, setupOf: (string, string) -> SetupLookup): real
  {
    if scans == [] then 0.0
    else DiskGB(scans[..|scans| - 1], ant, setupOf) + ScanGB(scans[|scans| - 1], ant, setupOf)
  }

  /** The data rate reported back: that of the last counted scan, or the caller's value when none counts. */
  function LastRate(scans: seq<PeekScan>, ant: string, setupOf: (string, string) -> SetupLookup, rate0: real): real
  {
    if scans == [] then rate0
    else if Counted(scans[|scans| - 1], ant, setupOf) then setupOf(scans[|scans| - 1].modeDefName, ant).rateMbps
    else LastRate(scans[..|scans| - 1], ant, setupOf, rate0)
  }

  /** Disk usage adds up over consecutive runs of scans. */
  lemma {:induction false} DiskGBAppend(a: seq<PeekScan>, b: seq<PeekScan>, ant: string, setupOf: (string, string) -> SetupLookup)
    ensures DiskGB(a + b, ant, setupOf) == DiskGB(a, ant, setupOf) + DiskGB(b, ant, setupOf)
  {
    if b == [] {
      assert a + b == a;
    } else {
      var k := |b| - 1;
      DiskGBAppend(a, b[..k], ant, setupOf);
      assert (a + b)[..|a + b| - 1] == a + b[..k];
    }
  }

  /** A scan that does not count adds nothing, wherever it stands. */
  lemma SkippedScan(a: seq<PeekScan>, s: PeekScan, b: seq<PeekScan>, ant: string, setupOf: (string, string) -> SetupLookup)
    requires !Counted(s, ant, setupOf)
    ensures DiskGB(a + [s] + b, ant, setupOf) == DiskGB(a + b, ant, setupOf)
  {
    DiskGBAppend(a + [s], b, ant, setupOf);
    DiskGBAppend(a, [s], ant, setupOf);
    DiskGBAppend(a, b, ant, setupOf);
    assert [s][..0] == [];
  }

  /** With non-negative rates and forward time ranges, disk usage is never negative. */
  lemma {:induction false} DiskGBNonNegative(scans: seq<PeekScan>, ant: string, setupOf: (string, string) -> SetupLookup)
    requires forall s | 0 <= s < |scans| :: Counted(scans[s], ant, setupOf) ==>
      setupOf(scans[s].modeDefName, ant).rateMbps >= 0.0
      && StationInterval(scans[s].stations, ant).value.mjdStop >= StationInterval(scans[s].stations, ant).value.mjdStart
    ensures DiskGB(scans, ant, setupOf) >= 0.0
  {
    if scans != [] {
      var k := |scans| - 1;
      assert forall s | 0 <= s < k :: scans[..k][s] == scans[s];
      DiskGBNonNegative(scans[..k], ant, setupOf);
      if Counted(scans[k], ant, setupOf) {
        var iv := StationInterval(scans[k].stations, ant).value;
        assert DurationSeconds(iv) >= 0.0;
      }
    }
  }

  /**
   * totalDiskUsageGB: the station's disk usage over the schedule, and the
   * data rate of the last scan counted (the caller's value if none counts).
   */
  method TotalDiskUsageGB(data: PeekData, ant: string, rate0: real) returns (gb: real, rate: real)
    ensures gb == DiskGB(data.scans, ant, data.setupOf)
    ensures rate == LastRate(data.scans, ant, data.setupOf, rate0)
  {
    gb, rate := 0.0, rate0;
    for s := 0 to |data.scans|
      invariant gb == DiskGB(data.scans[..s], ant, data.setupOf)
      invariant rate == LastRate(data.scans[..s], ant, data.setupOf, rate0)
    {
      var scan := data.scans[s];
      assert data.scans[..s + 1][..s] == data.scans[..s];
      var iv := StationInterval(scan.stations, ant);
      if iv.None? {
        continue;
      }
      var setup := data.setupOf(scan.modeDefName, ant);
      if !setup.Found? {
        continue;
      }
      rate := setup.rateMbps;
      gb := gb + setup.rateMbps * DurationSeconds(iv.value) / 8000.0;
    }
    assert data.scans[..|data.scans|] == data.scans;
  }

  /* ---------- antennaSummary ---------- */

  /** One printed line of the station summary: its span, and its format and disk usage when asked for. */
  datatype SummaryRow = SummaryRow(span: Interval, format: Option<string>, usage: Option<(real, int)>)

  /** A conversion of a real to an integer that drops the fraction, rounding toward zero. */
  function Trunc(r: real): (t: int)
    ensures -1.0 < r - t as real < 1.0
    ensures r >= 0.0 ==> 0 <= t && t as real <= r
    ensures r < 0.0 ==> t <= 0 && r <= t as real
  {
    if r >= 0.0 then r.Floor else -((-r).Floor)
  }

  /**
   * A station's line: a station with no recorded format prints an empty
   * one; the disk usage starts from a data rate of zero.
   */
  function StationRow(data: PeekData, hulls: map<string, Interval>, formats: map<string, string>, n: string,
                      doFormat: bool, doUsage: bool): SummaryRow
    requires n in hulls
  {
    SummaryRow(hulls[n],
      if doFormat then Some(if n in formats then formats[n] else "") else None,
      if doUsage then Some((DiskGB(data.scans, n, data.setupOf), Trunc(LastRate(data.scans, n, data.setupOf, 0.0))))
      else None)
  }

  /** The station summary, keyed by station name (it is printed in name order). */
  function AntennaRows(data: PeekData, doFormat: bool, doUsage: bool): map<string, SummaryRow>
  {
    var visits := Visits(data.scans);
    var hulls := Hulls(visits);
    var formats := Formats(visits, data.setupOf);
    map n | n in hulls :: StationRow(data, hulls, formats, n, doFormat, doUsage)
  }

  /** The visits of the scans are the stations of each scan, with that scan's mode. */
  lemma {:induction false} VisitsMembers(scans: seq<PeekScan>)
    ensures forall s, k | 0 <= s < |scans| && 0 <= k < |scans[s].stations| ::
      Visit(scans[s].stations[k].0, scans[s].stations[k].1, scans[s].modeDefName) in Visits(scans)
    ensures forall v | v in Visits(scans) :: exists s, k | 0 <= s < |scans| && 0 <= k < |scans[s].stations| ::
      v == Visit(scans[s].stations[k].0, scans[s].stations[k].1, scans[s].modeDefName)
  {
    if scans != [] {
      var n := |scans| - 1;
      var pre := scans[..n];
      VisitsMembers(pre);
      forall s, k | 0 <= s < |scans| && 0 <= k < |scans[s].stations|
        ensures Visit(scans[s].stations[k].0, scans[s].stations[k].1, scans[s].modeDefName) in Visits(scans)
      {
        if s < n {
          assert pre[s] == scans[s];
        } else {
          assert VisitsOf(scans[n])[k] in Visits(scans);
        }
      }
      forall v | v in Visits(scans)
        ensures exists s, k | 0 <= s < |scans| && 0 <= k < |scans[s].stations| ::
          v == Visit(scans[s].stations[k].0, scans[s].stations[k].1, scans[s].modeDefName)
      {
        if v in Visits(pre) {
          var s, k :| 0 <= s < |pre| && 0 <= k < |pre[s].stations|
            && v == Visit(pre[s].stations[k].0, pre[s].stations[k].1, pre[s].modeDefName);
          assert pre[s] == scans[s];
        } else {
          var k :| 0 <= k < |VisitsOf(scans[n])| && VisitsOf(scans[n])[k] == v;
          assert v == Visit(scans[n].stations[k].0, scans[n].stations[k].1, scans[n].modeDefName);
        }
      }
    }
  }

  /**
   * The summary lists exactly the stations of the schedule; each line's
   * span runs from the earliest start to the latest stop of that station
   * over all scans it takes part in.
   */
  lemma AntennaRowsSpan(data: PeekData, doFormat: bool, doUsage: bool)
    ensures forall n :: n in AntennaRows(data, doFormat, doUsage) <==>
      exists s, k | 0 <= s < |data.scans| && 0 <= k < |data.scans[s].stations| :: data.scans[s].stations[k].0 == n
    ensures forall s, k | 0 <= s < |data.scans| && 0 <= k < |data.scans[s].stations| ::
      var n := data.scans[s].stations[k].0;
      n in AntennaRows(data, doFormat, doUsage)
      && AntennaRows(data, doFormat, doUsage)[n].span.mjdStart <= data.scans[s].stations[k].1.mjdStart
      && AntennaRows(data, doFormat, doUsage)[n].span.mjdStop >= data.scans[s].stations[k].1.mjdStop
    ensures forall n | n in AntennaRows(data, doFormat, doUsage) ::
      exists s, k | 0 <= s < |data.scans| && 0 <= k < |data.scans[s].stations| ::
        data.scans[s].stations[k].0 == n
        && data.scans[s].stations[k].1.mjdStart == AntennaRows(data, doFormat, doUsage)[n].span.mjdStart
  {
    var scans := data.scans;
    var visits := Visits(scans);
    var rows := AntennaRows(data, doFormat, doUsage);
    VisitsMembers(scans);
    HullsDomain(visits);
    HullsCover(visits);
    HullsAttained(visits);
    forall s, k | 0 <= s < |scans| && 0 <= k < |scans[s].stations|
      ensures var n := scans[s].stations[k].0;
        n in rows && rows[n].span.mjdStart <= scans[s].stations[k].1.mjdStart
        && rows[n].span.mjdStop >= scans[s].stations[k].1.mjdStop
    {
      var v := Visit(scans[s].stations[k].0, scans[s].stations[k].1, scans[s].modeDefName);
      var i :| 0 <= i < |visits| && visits[i] == v;
    }
    forall n ensures n in rows <==>
      exists s, k | 0 <= s < |scans| && 0 <= k < |scans[s].stations| :: scans[s].stations[k].0 == n
    {
      if n in rows {
        var i :| 0 <= i < |visits| && visits[i].name == n;
        assert visits[i] in visits;
      }
    }
    forall n | n in rows
      ensures exists s, k | 0 <= s < |scans| && 0 <= k < |scans[s].stations| ::
        scans[s].stations[k].0 == n && scans[s].stations[k].1.mjdStart == rows[n].span.mjdStart
    {
      var i :| 0 <= i < |visits| && visits[i].name == n && visits[i].iv.mjdStart == Hulls(visits)[n].mjdStart;
      assert visits[i] in visits;
      var s, k :| 0 <= s < |scans| && 0 <= k < |scans[s].stations|
        && visits[i] == Visit(scans[s].stations[k].0, scans[s].stations[k].1, scans[s].modeDefName);
    }
  }

  /** Spans and formats after one more visit. */
  lemma VisitStep(done: seq<Visit>, v: Visit, setupOf: (string, string) -> SetupLookup)
    ensures Hulls(done + [v]) == HullStep(Hulls(done), v)
    ensures Formats(done + [v], setupOf) == FormatStep(Hulls(done), Formats(done, setupOf), v, setupOf)
  {
    assert (done + [v])[..|done|] == done;
  }

  /** Extending a prefix by one element. */
  lemma PrefixSnoc<T>(pre: seq<T>, vs: seq<T>, k: nat)
    requires k < |vs|
    ensures pre + vs[..k + 1] == (pre + vs[..k]) + [vs[k]]
  {
    assert vs[..k + 1] == vs[..k] + [vs[k]];
  }

  /** The spans and formats of antennaSummary after the visits `done`. */
  ghost predicate SummaryAt(done: seq<Visit>, spans: map<string, Interval>, formats: map<string, string>,
                            setupOf: (string, string) -> SetupLookup)
  {
    spans == Hulls(done) && formats == Formats(done, setupOf)
  }

  /** One visit's update of the spans and formats, as antennaSummary makes it. */
  lemma SummaryStep(done: seq<Visit>, v: Visit, spans: map<string, Interval>, formats: map<string, string>,
                    setupOf: (string, string) -> SetupLookup)
    requires SummaryAt(done, spans, formats, setupOf)
    ensures SummaryAt(done + [v],
      if v.name !in spans then spans[v.name := v.iv]
      else spans[v.name := Interval(if v.iv.mjdStart < spans[v.name].mjdStart then v.iv.mjdStart else spans[v.name].mjdStart,
                                    if v.iv.mjdStop > spans[v.name].mjdStop then v.iv.mjdStop else spans[v.name].mjdStop)],
      if v.name in spans then formats
      else if setupOf(v.mode, v.name).Found? then formats[v.name := setupOf(v.mode, v.name).format]
      else formats,
      setupOf)
  {
    VisitStep(done, v, setupOf);
  }

  /** The visits of one more scan follow those of the scans before it. */
  lemma VisitsSnoc(scans: seq<PeekScan>, s: nat)
    requires s < |scans|
    ensures Visits(scans[..s + 1]) == Visits(scans[..s]) + VisitsOf(scans[s])
  {
    assert scans[..s + 1][..s] == scans[..s];
  }

  /**
   * antennaSummary: each station's span over the schedule, with the
   * format of its first scan and its disk usage when asked for.
   */
  method AntennaSummary(data: PeekData, doFormat: bool, doUsage: bool) returns (rows: map<string, SummaryRow>)
    ensures rows == AntennaRows(data, doFormat, doUsage)
  {
    var spans: map<string, Interval> := map[];
    var formats: map<string, string> := map[];
    for s := 0 to |data.scans|
      invariant SummaryAt(Visits(data.scans[..s]), spans, formats, data.setupOf)
    {
      var scan := data.scans[s];
      ghost var done := Visits(data.scans[..s]);
      for k := 0 to |scan.stations|
        invariant done == Visits(data.scans[..s]) + VisitsOf(scan)[..k]
        invariant SummaryAt(done, spans, formats, data.setupOf)
      {
        var name, vi := scan.stations[k].0, scan.stations[k].1;
        ghost var v := VisitsOf(scan)[k];
        SummaryStep(done, v, spans, formats, data.setupOf);
        PrefixSnoc(Visits(data.scans[..s]), VisitsOf(scan), k);
        done := done + [v];
        if name !in spans {
          spans := spans[name := vi];
          var setup := data.setupOf(scan.modeDefName, name);
          if setup.Found? {
            formats := formats[name := setup.format];
          }
        } else {
          var span := spans[name];
          if vi.mjdStart < span.mjdStart {
            span := span.(mjdStart := vi.mjdStart);
          }
          if vi.mjdStop > span.mjdStop {
            span := span.(mjdStop := vi.mjdStop);
          }
          spans := spans[name := span];
        }
      }
      VisitsSnoc(data.scans, s);
      assert VisitsOf(scan)[..|scan.stations|] == VisitsOf(scan);
    }
    assert data.scans[..|data.scans|] == data.scans;

    rows := SummaryLines(data, spans, formats, doFormat, doUsage);
  }

  /** The output pass of antennaSummary: one line per station with a span. */
  method SummaryLines(data: PeekData, spans: map<string, Interval>, formats: map<string, string>,
                      doFormat: bool, doUsage: bool) returns (rows: map<string, SummaryRow>)
    ensures rows == map n | n in spans :: StationRow(data, spans, formats, n, doFormat, doUsage)
  {
    rows := map[];
    var todo := spans.Keys;
    while todo != {}
      invariant todo <= spans.Keys
      invariant rows.Keys == spans.Keys - todo
      invariant forall n | n in rows :: rows[n] == StationRow(data, spans, formats, n, doFormat, doUsage)
      decreases |todo|
    {
      var n :| n in todo;
      var format: Option<string> := None;
      if doFormat {
        format := Some(if n in formats then formats[n] else "");
      }
      var usage: Option<(real, int)> := None;
      if doUsage {
        var gb, drate := TotalDiskUsageGB(data, n, 0.0);
        usage := Some((gb, Trunc(drate)));
      }
      rows := rows[n := SummaryRow(spans[n], format, usage)];
      todo := todo - {n};
    }
  }

  /* ---------- moduleSummary ---------- */

  /** moduleSummary's listing: the recorded modules of every station of the schedule. */
  function ModuleRows(data: PeekData): map<string, seq<Baseband>>
  {
    map n | n in Hulls(Visits(data.scans)) :: data.vsns(n)
  }

  /**
   * moduleSummary: the same per-station spans as antennaSummary, then the
   * recorded modules of each station.
   */
  method ModuleSummary(data: PeekData) returns (spans: map<string, Interval>, rows: map<string, seq<Baseband>>)
    ensures spans == Hulls(Visits(data.scans))
    ensures rows == ModuleRows(data)
  {
    spans := map[];
    for s := 0 to |data.scans|
      invariant spans == Hulls(Visits(data.scans[..s]))
    {
      var scan := data.scans[s];
      ghost var pre := Visits(data.scans[..s]);
      assert pre + VisitsOf(scan)[..0] == pre;
      for k := 0 to |scan.stations|
        invariant spans == Hulls(pre + VisitsOf(scan)[..k])
      {
        var name, vi := scan.stations[k].0, scan.stations[k].1;
        VisitStep(pre + VisitsOf(scan)[..k], VisitsOf(scan)[k], data.setupOf);
        PrefixSnoc(pre, VisitsOf(scan), k);
        if name !in spans {
          spans := spans[name := vi];
        } else {
          var span := spans[name];
          if vi.mjdStart < span.mjdStart {
            span := span.(mjdStart := vi.mjdStart);
          }
          if vi.mjdStop > span.mjdStop {
            span := span.(mjdStop := vi.mjdStop);
          }
          spans := spans[name := span];
        }
      }
      VisitsSnoc(data.scans, s);
      assert VisitsOf(scan)[..|scan.stations|] == VisitsOf(scan);
    }
    assert data.scans[..|data.scans|] == data.scans;
    rows := map n | n in spans :: data.vsns(n);
  }

  /** The module listing covers exactly the stations of the station summary, whatever its options. */
  lemma ModulesMatchSummary(data: PeekData, doFormat: bool, doUsage: bool)
    ensures ModuleRows(data).Keys == AntennaRows(data, doFormat, doUsage).Keys
    ensures forall n | n in ModuleRows(data) :: AntennaRows(data, doFormat, doUsage)[n].span == Hulls(Visits(data.scans))[n]
  {
  }

  /* ---------- scanList ---------- */

  /** One printed line of the scan list: the scan's names and one column per station seen so far. */
  datatype ScanRow = ScanRow(defName: string, sourceDefName: string, modeDefName: string, cells: seq<string>)

  /** The names of the stations of a scan, in order. */
  function StationNames(scan: PeekScan): (r: seq<string>)
    ensures |r| == |scan.stations| && forall k | 0 <= k < |r| :: r[k] == scan.stations[k].0
  {
    seq(|scan.stations|, k requires 0 <= k < |scan.stations| => scan.stations[k].0)
  }

  /** The columns of the scan list after the scans: each station once, in order of first appearance. */
  function Columns(scans: seq<PeekScan>): seq<string>
  {
    Dedup(Names(Visits(scans)))
  }

  /** A scan's line: a column shows its station when the scan has it, and "--" otherwise. */
  function RowOf(scan: PeekScan, columns: seq<string>): (r: ScanRow)
    ensures |r.cells| == |columns|
  {
    ScanRow(scan.defName, scan.sourceDefName, scan.modeDefName,
      seq(|columns|, i requires 0 <= i < |columns| => if columns[i] in StationNames(scan) then columns[i] else "--"))
  }

  /** The scan list: each scan's line, with the columns of the stations met up to and including that scan. */
  function ScanRows(scans: seq<PeekScan>): (r: seq<ScanRow>)
    ensures |r| == |scans|
  {
    seq(|scans|, s requires 0 <= s < |scans| => RowOf(scans[s], Columns(scans[..s + 1])))
  }

  /** The station names of one more scan follow those of the scans before it. */
  lemma NamesSnoc(scans: seq<PeekScan>, s: nat)
    requires s < |scans|
    ensures Names(Visits(scans[..s + 1])) == Names(Visits(scans[..s])) + StationNames(scans[s])
  {
    VisitsSnoc(scans, s);
  }

  /**
   * The columns name every station of the scans once each, and nothing
   * else.
   */
  lemma ColumnsFacts(scans: seq<PeekScan>)
    ensures NoDup(Columns(scans))
    ensures forall x :: x in Columns(scans) <==>
      exists s, k | 0 <= s < |scans| && 0 <= k < |scans[s].stations| :: scans[s].stations[k].0 == x
  {
    var visits := Visits(scans);
    DedupFacts(Names(visits));
    VisitsMembers(scans);
    forall x ensures x in Names(visits) <==>
      exists s, k | 0 <= s < |scans| && 0 <= k < |scans[s].stations| :: scans[s].stations[k].0 == x
    {
      if x in Names(visits) {
        var i :| 0 <= i < |visits| && Names(visits)[i] == x;
        assert visits[i] in visits;
      }
      if exists s, k | 0 <= s < |scans| && 0 <= k < |scans[s].stations| :: scans[s].stations[k].0 == x {
        var s, k :| 0 <= s < |scans| && 0 <= k < |scans[s].stations| && scans[s].stations[k].0 == x;
        var v := Visit(scans[s].stations[k].0, scans[s].stations[k].1, scans[s].modeDefName);
        var i :| 0 <= i < |visits| && visits[i] == v;
        assert Names(visits)[i] == x;
      }
    }
  }

  /** The visits of a run of scans begin with the visits of any of its prefixes. */
  lemma {:induction false} VisitsPrefix(scans: seq<PeekScan>, s: nat)
    requires s <= |scans|
    ensures Visits(scans[..s]) <= Visits(scans)
  {
    if s < |scans| {
      var n := |scans| - 1;
      VisitsPrefix(scans[..n], s);
      assert scans[..n][..s] == scans[..s];
    } else {
      assert scans[..s] == scans;
    }
  }

  /**
   * Columns only ever grow at the end: the columns of an earlier line are
   * a prefix of those of every later line.
   */
  lemma ColumnsGrow(scans: seq<PeekScan>, s: nat, t: nat)
    requires s <= t <= |scans|
    ensures Columns(scans[..s]) <= Columns(scans[..t])
  {
    VisitsPrefix(scans[..t], s);
    assert scans[..t][..s] == scans[..s];
    var all := Names(Visits(scans[..t]));
    var m := |Visits(scans[..s])|;
    assert all[..m] == Names(Visits(scans[..s]));
    DedupPrefix(all, m);
  }

  /** The scan list after `s` scans: their lines, and the columns met so far. */
  ghost predicate ListedUpTo(scans: seq<PeekScan>, s: nat, rows: seq<ScanRow>, columns: seq<string>)
    requires s <= |scans|
  {
    rows == ScanRows(scans[..s]) && columns == Columns(scans[..s])
  }

  /** The scan list of one more scan ends with that scan's line. */
  lemma ScanRowsSnoc(scans: seq<PeekScan>, s: nat)
    requires s < |scans|
    ensures ScanRows(scans[..s + 1]) == ScanRows(scans[..s]) + [RowOf(scans[s], Columns(scans[..s + 1]))]
  {
    var a, b := ScanRows(scans[..s + 1]), ScanRows(scans[..s]);
    forall t | 0 <= t < s
      ensures a[t] == b[t]
    {
      assert scans[..s + 1][..t + 1] == scans[..t + 1] == scans[..s][..t + 1];
    }
    assert scans[..s + 1][..s + 1] == scans[..s + 1];
  }

  /** One more scan's line, printed with the columns met up to and including it. */
  lemma ListStep(scans: seq<PeekScan>, s: nat, rows: seq<ScanRow>, columns: seq<string>, cells: seq<string>)
    requires s < |scans| && ListedUpTo(scans, s, rows, columns)
    requires cells == RowOf(scans[s], Columns(scans[..s + 1])).cells
    ensures ListedUpTo(scans, s + 1, rows + [ScanRow(scans[s].defName, scans[s].sourceDefName, scans[s].modeDefName, cells)],
                       Columns(scans[..s + 1]))
  {
    ScanRowsSnoc(scans, s);
  }

  /** The output pass of one scanList line: a station's column shows it when the scan has it, "--" otherwise. */
  method StationCells(allStations: seq<string>, currStations: seq<string>) returns (cells: seq<string>)
    ensures |cells| == |allStations|
    ensures forall j | 0 <= j < |cells| :: cells[j] == if allStations[j] in currStations then allStations[j] else "--"
  {
    cells := [];
    for i := 0 to |allStations|
      invariant |cells| == i
      invariant forall j | 0 <= j < i :: cells[j] == if allStations[j] in currStations then allStations[j] else "--"
    {
      var ant := "--";
      if allStations[i] in currStations {
        ant := allStations[i];
      }
      cells := cells + [ant];
    }
  }

  /**
   * scanList: for each scan its names, then one column per station met so
   * far, showing the station where the scan has it.
   */
  method ScanList(data: PeekData) returns (rows: seq<ScanRow>)
    ensures rows == ScanRows(data.scans)
  {
    var scans := data.scans;
    rows := [];
    var allStations: seq<string> := [];
    for s := 0 to |scans|
      invariant ListedUpTo(scans, s, rows, allStations)
    {
      var scan := scans[s];
      ghost var seen := Names(Visits(scans[..s]));
      var currStations: seq<string> := [];
      assert seen + StationNames(scan)[..0] == seen;
      for k := 0 to |scan.stations|
        invariant currStations == StationNames(scan)[..k]
        invariant allStations == Dedup(seen + StationNames(scan)[..k])
      {
        var name := scan.stations[k].0;
        PrefixSnoc(seen, StationNames(scan), k);
        DedupSnoc(seen + StationNames(scan)[..k], name);
        currStations := currStations + [name];
        if name !in allStations {
          allStations := allStations + [name];
        }
      }
      assert StationNames(scan)[..|scan.stations|] == StationNames(scan);
      NamesSnoc(scans, s);
      var cells := StationCells(allStations, currStations);
      assert cells == RowOf(scan, allStations).cells;
      ListStep(scans, s, rows, Columns(scans[..s]), cells);
      rows := rows + [ScanRow(scan.defName, scan.sourceDefName, scan.modeDefName, cells)];
    }
    assert scans[..|scans|] == scans;
  }

  /* ---------- testVex ---------- */

  /** Size of the buffer the first line is read into, terminator included. */
  const MaxLineLength: nat := 128

  /**
   * The characters a bounded line read stores: those before the first line
   * break, at most `room` of them.
   */
  function LineRead(content: string, room: nat): (r: string)
    ensures |r| <= room && r <= content && '\n' !in r
  {
    if content == [] || room == 0 || content[0] == '\n' then []
    else [content[0]] + LineRead(content[1..], room - 1)
  }

  /**
   * Whether reading the first line runs into the end of the file: the
   * file ends before both a line break and a full buffer.
   */
  predicate HitsEnd(content: string)
  {
    |content| < MaxLineLength && '\n' !in content
  }

  /**
   * testVex: -1 when the file cannot be opened (`None`), -2 when its first
   * line reaches the end of the file, -3 when that line starts as a sked
   * file does, -4 when it does not start with "VEX", and 0 otherwise.
   */
  function TestVex(file: Option<string>): (r: int)
    ensures r == -1 <==> file.None?
    ensures r == -2 <==> file.Some? && HitsEnd(file.value)
    ensures r == 0 ==> "VEX" <= file.value
  {
    match file
    case None => -1
    case Some(content) =>
      if HitsEnd(content) then -2
      else
        var line := LineRead(content, MaxLineLength - 1);
        if "$EXPER " <= line then -3
        else if !("VEX" <= line) then -4
        else 0
  }

  /** A line ended by a line break is read whole when it fits the buffer. */
  lemma {:induction false} LineReadStops(line: string, rest: string, room: nat)
    requires '\n' !in line && |line| <= room
    ensures LineRead(line + "\n" + rest, room) == line
  {
    if line != [] {
      assert (line + "\n" + rest)[1..] == line[1..] + "\n" + rest;
      LineReadStops(line[1..], rest, room - 1);
    } else {
      assert (line + "\n" + rest)[0] == '\n';
    }
  }

  /** A read with no line break in reach stores a full buffer. */
  lemma {:induction false} LineReadFull(content: string, room: nat)
    requires room <= |content| && '\n' !in content[..room]
    ensures LineRead(content, room) == content[..room]
  {
    if room > 0 {
      assert content[..room][0] == content[0];
      assert content[1..][..room - 1] == content[..room][1..];
      LineReadFull(content[1..], room - 1);
    }
  }

  /** A file whose first line fits the buffer is classified by that line alone. */
  lemma TestVexFirstLine(line: string, rest: string)
    requires '\n' !in line && |line| < MaxLineLength
    ensures TestVex(Some(line + "\n" + rest)) ==
      if "$EXPER " <= line then -3 else if "VEX" <= line then 0 else -4
  {
    LineReadStops(line, rest, MaxLineLength - 1);
    assert (line + "\n" + rest)[|line|] == '\n';
  }

  /** A first line longer than the buffer is classified by its first 127 characters. */
  lemma TestVexLongLine(content: string)
    requires |content| >= MaxLineLength && '\n' !in content[..MaxLineLength - 1]
    ensures TestVex(Some(content)) ==
      var head := content[..MaxLineLength - 1];
      if "$EXPER " <= head then -3 else if "VEX" <= head then 0 else -4
  {
    LineReadFull(content, MaxLineLength - 1);
  }

  /* ---------- main: command-line options ---------- */

  /** The option counters; `doSummary` is cleared by the options that select a listing instead. */
  datatype Flags = Flags(verbose: nat, doFormat: nat, doUsage: nat, doTime: nat,
                         doBandList: nat, doScanList: nat, doModules: nat, doCoords: nat, doSummary: bool)

  const NoFlags := Flags(0, 0, 0, 0, 0, 0, 0, 0, true)

  /** The optional listings. */
  datatype Listing = Bands | Scans | Modules | Coords

  /**
   * What an argument means: the lower-case listing options also turn the
   * station summary off (`clears`), the upper-case ones only add the listing.
   */
  datatype ArgKind = HelpArg | VerboseArg | FormatArg | UsageArg | TimeArg
                   | ListArg(listing: Listing, clears: bool) | AllArg | UnknownArg | FileArg

  /** An argument starting with '-' is an option; anything else is a file name. */
  predicate IsOption(arg: string)
  {
    |arg| > 0 && arg[0] == '-'
  }

  /** The option spellings main recognises, tried in its order; other arguments starting with '-' are unknown. */
  function Classify(arg: string): (k: ArgKind)
    ensures k == FileArg <==> !IsOption(arg)
  {
    if arg == "-h" || arg == "--help" then HelpArg
    else if arg == "-v" || arg == "--verbose" then VerboseArg
    else if arg == "-f" || arg == "--format" then FormatArg
    else if arg == "-u" || arg == "--diskusage" then UsageArg
    else if arg == "-t" || arg == "--doTime" then TimeArg
    else if arg == "-b" || arg == "--bands" then ListArg(Bands, true)
    else if arg == "-s" || arg == "--scans" then ListArg(Scans, true)
    else if arg == "-m" || arg == "--modules" then ListArg(Modules, true)
    else if arg == "-c" || arg == "--coords" then ListArg(Coords, true)
    else if arg == "-B" || arg == "--Bands" then ListArg(Bands, false)
    else if arg == "-S" || arg == "--Scans" then ListArg(Scans, false)
    else if arg == "-M" || arg == "--Modules" then ListArg(Modules, false)
    else if arg == "-C" || arg == "--Coords" then ListArg(Coords, false)
    else if arg == "-a" || arg == "--all" then AllArg
    else if IsOption(arg) then UnknownArg
    else FileArg
  }

  /** The meaning of each argument. */
  function Kinds(args: seq<string>): (kinds: seq<ArgKind>)
    ensures |kinds| == |args|
  {
    if args == [] then [] else Kinds(args[..|args| - 1]) + [Classify(args[|args| - 1])]
  }

  /** The meaning of each argument is its classification. */
  lemma {:induction false} KindsAt(args: seq<string>, i: nat)
    requires i < |args|
    ensures Kinds(args)[i] == Classify(args[i])
  {
    var n := |args| - 1;
    if i < n {
      KindsAt(args[..n], i);
    }
  }

  /** The meanings of a prefix of the arguments are a prefix of their meanings. */
  lemma {:induction false} KindsPrefix(args: seq<string>, k: nat)
    requires k <= |args|
    ensures Kinds(args[..k]) == Kinds(args)[..k]
  {
    if k < |args| {
      var n := |args| - 1;
      KindsPrefix(args[..n], k);
      assert args[..n][..k] == args[..k];
    } else {
      assert args[..k] == args;
    }
  }

  /** Where reading the arguments stands: still reading, or stopped for help or an error. */
  datatype ArgState = Reading(flags: Flags, fileName: Option<string>) | Help | UnknownOption(arg: string) | SecondFile

  /** The counter of a listing, one higher. */
  function Bump(flags: Flags, l: Listing): Flags
  {
    match l
    case Bands => flags.(doBandList := flags.doBandList + 1)
    case Scans => flags.(doScanList := flags.doScanList + 1)
    case Modules => flags.(doModules := flags.doModules + 1)
    case Coords => flags.(doCoords := flags.doCoords + 1)
  }

  /** The effect of one argument of the given meaning while reading. */
  function ArgStep(flags: Flags, fileName: Option<string>, kind: ArgKind, arg: string): ArgState
  {
    match kind
    case HelpArg => Help
    case VerboseArg => Reading(flags.(verbose := flags.verbose + 1), fileName)
    case FormatArg => Reading(flags.(doFormat := flags.doFormat + 1), fileName)
    case UsageArg => Reading(flags.(doUsage := flags.doUsage + 1), fileName)
    case TimeArg => Reading(flags.(doTime := flags.doTime + 1), fileName)
    case ListArg(l, clears) => Reading(Bump(flags, l).(doSummary := flags.doSummary && !clears), fileName)
    case AllArg => Reading(Bump(Bump(Bump(Bump(flags, Bands), Scans), Modules), Coords), fileName)
    case UnknownArg => UnknownOption(arg)
    case FileArg => if fileName.Some? then SecondFile else Reading(flags, Some(arg))
  }

  /** The arguments, of the given meanings, read left to right; reading stops at help or at the first error. */
  function Parse(args: seq<string>, kinds: seq<ArgKind>): ArgState
    requires |kinds| == |args|
  {
    if args == [] then Reading(NoFlags, None)
    else
      var n := |args| - 1;
      var st := Parse(args[..n], kinds[..n]);
      if st.Reading? then ArgStep(st.flags, st.fileName, kinds[n], args[n]) else st
  }

  /** main's reading of its arguments. */
  function ParseArgs(args: seq<string>): ArgState
  {
    Parse(args, Kinds(args))
  }

  /** Whether an argument of this meaning asks for a listing, by its own option or by -a. */
  predicate AsksFor(kind: ArgKind, l: Listing)
  {
    kind == AllArg || (kind.ListArg? && kind.listing == l)
  }

  /** How many of the arguments ask for a listing. */
  function CountAsking(kinds: seq<ArgKind>, l: Listing): (n: nat)
    ensures n <= |kinds|
  {
    if kinds == [] then 0
    else CountAsking(kinds[..|kinds| - 1], l) + if AsksFor(kinds[|kinds| - 1], l) then 1 else 0
  }

  /** The arguments are all accepted: options other than help that main knows, and at most one file name. */
  predicate Accepted(kinds: seq<ArgKind>)
  {
    (forall i | 0 <= i < |kinds| :: kinds[i] != HelpArg && kinds[i] != UnknownArg)
    && (forall i, j | 0 <= i < j < |kinds| :: kinds[i] != FileArg || kinds[j] != FileArg)
  }

  /**
   * After reading, the file name is the one file-name argument, if there
   * is one.
   */
  lemma {:induction false} ParseFileName(args: seq<string>, kinds: seq<ArgKind>)
    requires |kinds| == |args| && Parse(args, kinds).Reading?
    ensures Parse(args, kinds).fileName.None? <==> forall i | 0 <= i < |args| :: kinds[i] != FileArg
    ensures Parse(args, kinds).fileName.Some? ==>
      exists i | 0 <= i < |args| :: args[i] == Parse(args, kinds).fileName.value && kinds[i] == FileArg
  {
    if args != [] {
      var n := |args| - 1;
      ParseFileName(args[..n], kinds[..n]);
      assert forall i | 0 <= i < n :: args[..n][i] == args[i] && kinds[..n][i] == kinds[i];
    }
  }

  /** Reading gets through the arguments exactly when they are accepted. */
  lemma {:induction false} ParseAccepted(args: seq<string>, kinds: seq<ArgKind>)
    requires |kinds| == |args|
    ensures Parse(args, kinds).Reading? <==> Accepted(kinds)
  {
    if args != [] {
      var n := |args| - 1;
      var pre, kpre := args[..n], kinds[..n];
      ParseAccepted(pre, kpre);
      assert forall i | 0 <= i < n :: kpre[i] == kinds[i];
      if Parse(pre, kpre).Reading? {
        ParseFileName(pre, kpre);
      }
      if Accepted(kinds) {
        assert Accepted(kpre);
      }
    }
  }

  /** After reading, the station summary is on exactly when no lower-case listing option turned it off. */
  lemma {:induction false} ParseSummary(args: seq<string>, kinds: seq<ArgKind>)
    requires |kinds| == |args| && Parse(args, kinds).Reading?
    ensures Parse(args, kinds).flags.doSummary <==> forall i | 0 <= i < |kinds| :: !(kinds[i].ListArg? && kinds[i].clears)
  {
    if args != [] {
      var n := |args| - 1;
      var st := Parse(args[..n], kinds[..n]);
      ParseSummary(args[..n], kinds[..n]);
      StepSummary(st.flags, st.fileName, kinds[n], args[n]);
      assert forall i | 0 <= i < n :: kinds[..n][i] == kinds[i];
    }
  }

  /** Only a lower-case listing option turns the summary off, and nothing turns it back on. */
  lemma StepSummary(flags: Flags, fileName: Option<string>, kind: ArgKind, arg: string)
    requires ArgStep(flags, fileName, kind, arg).Reading?
    ensures ArgStep(flags, fileName, kind, arg).flags.doSummary == (flags.doSummary && !(kind.ListArg? && kind.clears))
  {
  }

  /** After reading, each listing's counter counts the arguments asking for it. */
  lemma {:induction false} ParseCounts(args: seq<string>, kinds: seq<ArgKind>)
    requires |kinds| == |args| && Parse(args, kinds).Reading?
    ensures Parse(args, kinds).flags.doBandList == CountAsking(kinds, Bands)
    ensures Parse(args, kinds).flags.doScanList == CountAsking(kinds, Scans)
    ensures Parse(args, kinds).flags.doModules == CountAsking(kinds, Modules)
    ensures Parse(args, kinds).flags.doCoords == CountAsking(kinds, Coords)
  {
    if args != [] {
      var n := |args| - 1;
      ParseCounts(args[..n], kinds[..n]);
    }
  }

  /** Once reading has stopped, later arguments change nothing. */
  lemma {:induction false} ParseStopped(args: seq<string>, kinds: seq<ArgKind>, k: nat)
    requires |kinds| == |args| && k <= |args| && !Parse(args[..k], kinds[..k]).Reading?
    ensures Parse(args, kinds) == Parse(args[..k], kinds[..k])
  {
    if k < |args| {
      var n := |args| - 1;
      assert args[..n][..k] == args[..k] && kinds[..n][..k] == kinds[..k];
      ParseStopped(args[..n], kinds[..n], k);
    } else {
      assert args[..k] == args && kinds[..k] == kinds;
    }
  }

  /**
   * The first argument that is not accepted decides the outcome: help,
   * an unknown option, or a second file name; the rest are never looked at.
   */
  lemma ParseFirstRejected(args: seq<string>, kinds: seq<ArgKind>, i: nat)
    requires |kinds| == |args| && i < |args| && Accepted(kinds[..i]) && !Accepted(kinds[..i + 1])
    ensures kinds[i] == HelpArg ==> Parse(args, kinds) == Help
    ensures kinds[i] == UnknownArg ==> Parse(args, kinds) == UnknownOption(args[i])
    ensures kinds[i] == FileArg ==> Parse(args, kinds) == SecondFile
  {
    var pre, kpre := args[..i], kinds[..i];
    ParseAccepted(pre, kpre);
    ParseAccepted(args[..i + 1], kinds[..i + 1]);
    assert args[..i + 1][..i] == pre && kinds[..i + 1][..i] == kpre;
    ParseFileName(pre, kpre);
    ParseStopped(args, kinds, i + 1);
  }

  /** main's reading of its arguments (all but the program name). */
  method ParseOptions(args: seq<string>) returns (st: ArgState)
    ensures st == ParseArgs(args)
  {
    ghost var kinds := Kinds(args);
    var flags := NoFlags;
    var fileName: Option<string> := None;
    for a := 0 to |args|
      invariant Parse(args[..a], kinds[..a]) == Reading(flags, fileName)
    {
      var arg := args[a];
      assert args[..a + 1][..a] == args[..a] && kinds[..a + 1][..a] == kinds[..a];
      KindsAt(args, a);
      match Classify(arg)
      case HelpArg =>
        ParseStopped(args, kinds, a + 1);
        return Help;
      case VerboseArg =>
        flags := flags.(verbose := flags.verbose + 1);
      case FormatArg =>
        flags := flags.(doFormat := flags.doFormat + 1);
      case UsageArg =>
        flags := flags.(doUsage := flags.doUsage + 1);
      case TimeArg =>
        flags := flags.(doTime := flags.doTime + 1);
      case ListArg(l, clears) =>
        flags := Bump(flags, l).(doSummary := flags.doSummary && !clears);
      case AllArg =>
        flags := Bump(Bump(Bump(Bump(flags, Bands), Scans), Modules), Coords);
      case UnknownArg =>
        ParseStopped(args, kinds, a + 1);
        return UnknownOption(arg);
      case FileArg =>
        if fileName.Some? {
          ParseStopped(args, kinds, a + 1);
          return SecondFile;
        }
        fileName := Some(arg);
    }
    assert args[..|args|] == args && kinds[..|args|] == kinds;
    st := Reading(flags, fileName);
  }

  /** A listing is counted exactly when some argument asks for it. */
  lemma {:induction false} CountAskingPositive(kinds: seq<ArgKind>, l: Listing)
    ensures CountAsking(kinds, l) > 0 <==> exists i | 0 <= i < |kinds| :: AsksFor(kinds[i], l)
  {
    if kinds != [] {
      var n := |kinds| - 1;
      CountAskingPositive(kinds[..n], l);
      assert forall i | 0 <= i < n :: kinds[..n][i] == kinds[i];
    }
  }

  /* ---------- main: what is printed ---------- */

  /** A block of main's output. */
  datatype Section =
    | Usage
    | UnknownOptionMessage(arg: string)
    | OnlyOneFileMessage
    | NoFileNameMessage
    | ErrorCode(code: int)
    | Dump                                    // the whole loaded schedule, with -v
    | Header(name: string, obsStart: real, obsStop: real)
    | ExperName(name: string)
    | StationSummary(summary: map<string, SummaryRow>)
    | BandListing
    | ScanListing(scanRows: seq<ScanRow>)
    | ModuleListing(modules: map<string, seq<Baseband>>)
    | CoordListing

  /** main's exit status and output. */
  datatype RunResult = RunResult(code: int, output: seq<Section>)

  const ExitSuccess: int := 0
  const ExitFailure: int := 1

  /** The sections printed for a loaded schedule. */
  function Report(flags: Flags, data: PeekData): seq<Section>
  {
    Arrange(flags, data.experName, data.obsStart, data.obsStop,
            AntennaRows(data, flags.doFormat > 0, flags.doUsage > 0), ScanRows(data.scans), ModuleRows(data))
  }

  /**
   * The order of the output: the dump (-v), the header line (-m or -t),
   * the station summary (preceded by the experiment name unless the header
   * was printed), then the band, scan, module and coordinate listings.
   */
  function Arrange(flags: Flags, name: string, obsStart: real, obsStop: real,
                   summary: map<string, SummaryRow>, scanRows: seq<ScanRow>, modules: map<string, seq<Baseband>>): seq<Section>
  {
    DumpPart(flags) + HeaderPart(flags, name, obsStart, obsStop) + SummaryPart(flags, name, summary)
    + BandPart(flags) + ScanPart(flags, scanRows) + ModulePart(flags, modules) + CoordPart(flags)
  }

  function DumpPart(flags: Flags): seq<Section>
  {
    if flags.verbose > 0 then [Dump] else []
  }

  function HeaderPart(flags: Flags, name: string, obsStart: real, obsStop: real): seq<Section>
  {
    if flags.doModules > 0 || flags.doTime > 0 then [Header(name, obsStart, obsStop)] else []
  }

  function SummaryPart(flags: Flags, name: string, summary: map<string, SummaryRow>): seq<Section>
  {
    if flags.doSummary then
      (if flags.doModules == 0 && flags.doTime == 0 then [ExperName(name)] else []) + [StationSummary(summary)]
    else []
  }

  function BandPart(flags: Flags): seq<Section>
  {
    if flags.doBandList > 0 then [BandListing] else []
  }

  function ScanPart(flags: Flags, scanRows: seq<ScanRow>): seq<Section>
  {
    if flags.doScanList > 0 then [ScanListing(scanRows)] else []
  }

  function ModulePart(flags: Flags, modules: map<string, seq<Baseband>>): seq<Section>
  {
    if flags.doModules > 0 then [ModuleListing(modules)] else []
  }

  function CoordPart(flags: Flags): seq<Section>
  {
    if flags.doCoords > 0 then [CoordListing] else []
  }

  /**
   * main, given the arguments after the program name, the contents of the
   * files (`None` for one that cannot be opened) and the schedule loaded
   * from the named file.
   */
  function MainResult(args: seq<string>, files: string -> Option<string>, data: PeekData): RunResult
  {
    match ParseArgs(args)
    case Help => RunResult(ExitSuccess, [Usage])
    case UnknownOption(a) => RunResult(ExitFailure, [UnknownOptionMessage(a)])
    case SecondFile => RunResult(ExitFailure, [OnlyOneFileMessage])
    case Reading(flags, fileName) =>
      if fileName.None? then RunResult(ExitFailure, [NoFileNameMessage])
      else
        var v := TestVex(files(fileName.value));
        if v != 0 then RunResult(1, [ErrorCode(v)])
        else RunResult(0, Report(flags, data))
  }

  /**
   * main succeeds exactly when reading stops for help, or gets through the
   * arguments with a file name whose file passes the vex check; every
   * failure exits with 1.
   */
  lemma MainExitCode(args: seq<string>, files: string -> Option<string>, data: PeekData)
    ensures MainResult(args, files, data).code in {ExitSuccess, ExitFailure}
    ensures MainResult(args, files, data).code == ExitSuccess <==>
      ParseArgs(args) == Help
      || (ParseArgs(args).Reading? && ParseArgs(args).fileName.Some? && TestVex(files(ParseArgs(args).fileName.value)) == 0)
    ensures MainResult(args, files, data).code == ExitSuccess && ParseArgs(args).Reading? ==>
      MainResult(args, files, data).output == Report(ParseArgs(args).flags, data)
  {
  }

  /** Reading stops for help exactly when an argument asks for help and all before it are accepted. */
  lemma ParseHelp(args: seq<string>, kinds: seq<ArgKind>)
    requires |kinds| == |args|
    ensures Parse(args, kinds) == Help <==> exists i | 0 <= i < |args| :: kinds[i] == HelpArg && Accepted(kinds[..i])
  {
    if exists i | 0 <= i < |args| :: kinds[i] == HelpArg && Accepted(kinds[..i]) {
      var i :| 0 <= i < |args| && kinds[i] == HelpArg && Accepted(kinds[..i]);
      HelpAfterAccepted(args, kinds, i);
    }
    if Parse(args, kinds) == Help {
      var i := HelpPosition(args, kinds);
    }
  }

  /** A help argument after accepted ones stops reading for help. */
  lemma HelpAfterAccepted(args: seq<string>, kinds: seq<ArgKind>, i: nat)
    requires |kinds| == |args| && i < |args| && kinds[i] == HelpArg && Accepted(kinds[..i])
    ensures Parse(args, kinds) == Help
  {
    assert kinds[..i + 1][i] == HelpArg;
    ParseFirstRejected(args, kinds, i);
  }

  /** When reading stops for help, the first argument not accepted asks for help. */
  lemma HelpPosition(args: seq<string>, kinds: seq<ArgKind>) returns (i: nat)
    requires |kinds| == |args| && Parse(args, kinds) == Help
    ensures i < |args| && kinds[i] == HelpArg && Accepted(kinds[..i])
  {
    ParseAccepted(args, kinds);
    i := FirstRejected(kinds);
    RejectedKind(kinds, i);
    ParseFirstRejected(args, kinds, i);
  }

  /** The argument that ends the accepted ones asks for help, is unknown, or is a second file name. */
  lemma RejectedKind(kinds: seq<ArgKind>, i: nat)
    requires i < |kinds| && Accepted(kinds[..i]) && !Accepted(kinds[..i + 1])
    ensures kinds[i] == HelpArg || kinds[i] == UnknownArg || kinds[i] == FileArg
  {
    var pre, ext := kinds[..i], kinds[..i + 1];
    assert forall j | 0 <= j < i :: ext[j] == pre[j];
    assert ext[i] == kinds[i];
  }

  /** The first argument that is not accepted, when not all are. */
  function FirstRejected(kinds: seq<ArgKind>): (i: nat)
    requires !Accepted(kinds)
    ensures i < |kinds| && Accepted(kinds[..i]) && !Accepted(kinds[..i + 1])
  {
    var n := |kinds| - 1;
    if Accepted(kinds[..n]) then
      assert kinds[..n + 1] == kinds;
      n
    else
      var i := FirstRejected(kinds[..n]);
      assert kinds[..n][..i] == kinds[..i] && kinds[..n][..i + 1] == kinds[..i + 1];
      i
  }

  /** A section is in the report exactly when it is in one of its parts. */
  lemma ArrangeMembers(flags: Flags, name: string, obsStart: real, obsStop: real,
                       summary: map<string, SummaryRow>, scanRows: seq<ScanRow>, modules: map<string, seq<Baseband>>, x: Section)
    ensures x in Arrange(flags, name, obsStart, obsStop, summary, scanRows, modules) <==>
      x in DumpPart(flags) || x in HeaderPart(flags, name, obsStart, obsStop) || x in SummaryPart(flags, name, summary)
      || x in BandPart(flags) || x in ScanPart(flags, scanRows) || x in ModulePart(flags, modules) || x in CoordPart(flags)
  {
  }

  /**
   * The report holds the station summary exactly when it is on, and the
   * experiment name line exactly when the summary is printed without the
   * header line.
   */
  lemma ReportSummary(flags: Flags, name: string, obsStart: real, obsStop: real,
                      summary: map<string, SummaryRow>, scanRows: seq<ScanRow>, modules: map<string, seq<Baseband>>)
    ensures var out := Arrange(flags, name, obsStart, obsStop, summary, scanRows, modules);
      (StationSummary(summary) in out <==> flags.doSummary)
      && (ExperName(name) in out <==> flags.doSummary && flags.doModules == 0 && flags.doTime == 0)
  {
    ArrangeMembers(flags, name, obsStart, obsStop, summary, scanRows, modules, StationSummary(summary));
    ArrangeMembers(flags, name, obsStart, obsStop, summary, scanRows, modules, ExperName(name));
  }

  /** The report holds each listing exactly when its counter is positive. */
  lemma ReportListings(flags: Flags, name: string, obsStart: real, obsStop: real,
                       summary: map<string, SummaryRow>, scanRows: seq<ScanRow>, modules: map<string, seq<Baseband>>)
    ensures var out := Arrange(flags, name, obsStart, obsStop, summary, scanRows, modules);
      (BandListing in out <==> flags.doBandList > 0)
      && (ScanListing(scanRows) in out <==> flags.doScanList > 0)
      && (ModuleListing(modules) in out <==> flags.doModules > 0)
      && (CoordListing in out <==> flags.doCoords > 0)
  {
    ArrangeMembers(flags, name, obsStart, obsStop, summary, scanRows, modules, BandListing);
    ArrangeMembers(flags, name, obsStart, obsStop, summary, scanRows, modules, ScanListing(scanRows));
    ArrangeMembers(flags, name, obsStart, obsStop, summary, scanRows, modules, ModuleListing(modules));
    ArrangeMembers(flags, name, obsStart, obsStop, summary, scanRows, modules, CoordListing);
  }

  /** vexpeek's main after the program name: read the options, check the file, print the report. */
  method Run(args: seq<string>, files: string -> Option<string>, data: PeekData) returns (r: RunResult)
    ensures r == MainResult(args, files, data)
  {
    var st := ParseOptions(args);
    if st.Help? {
      return RunResult(ExitSuccess, [Usage]);
    } else if st.UnknownOption? {
      return RunResult(ExitFailure, [UnknownOptionMessage(st.arg)]);
    } else if st.SecondFile? {
      return RunResult(ExitFailure, [OnlyOneFileMessage]);
    }
    var flags := st.flags;
    if st.fileName.None? {
      return RunResult(ExitFailure, [NoFileNameMessage]);
    }
    var v := TestVex(files(st.fileName.value));
    if v != 0 {
      return RunResult(1, [ErrorCode(v)]);
    }
    var out := PrintReport(flags, data);
    return RunResult(0, out);
  }

  /** The output main prints for a loaded schedule. */
  method PrintReport(flags: Flags, data: PeekData) returns (out: seq<Section>)
    ensures out == Report(flags, data)
  {
    out := [];
    if flags.verbose > 0 {
      out := out + [Dump];
    }
    if flags.doModules > 0 || flags.doTime > 0 {
      out := out + [Header(data.experName, data.obsStart, data.obsStop)];
    }
    assert out == DumpPart(flags) + HeaderPart(flags, data.experName, data.obsStart, data.obsStop);
    var summary := PrintSummary(flags, data);
    var band := if flags.doBandList > 0 then [BandListing] else [];
    var scans := PrintScanList(flags, data);
    var modules := PrintModules(flags, data);
    var coords := if flags.doCoords > 0 then [CoordListing] else [];
    out := out + summary + band + scans + modules + coords;
  }

  /** The station summary, preceded by the experiment name unless the header line was printed. */
  method PrintSummary(flags: Flags, data: PeekData) returns (part: seq<Section>)
    ensures part == SummaryPart(flags, data.experName, AntennaRows(data, flags.doFormat > 0, flags.doUsage > 0))
  {
    part := [];
    if flags.doSummary {
      if flags.doModules == 0 && flags.doTime == 0 {
        part := [ExperName(data.experName)];
      }
      var rows := AntennaSummary(data, flags.doFormat > 0, flags.doUsage > 0);
      part := part + [StationSummary(rows)];
    }
  }

  /** The scan listing, with -s. */
  method PrintScanList(flags: Flags, data: PeekData) returns (part: seq<Section>)
    ensures part == ScanPart(flags, ScanRows(data.scans))
  {
    part := [];
    if flags.doScanList > 0 {
      var rows := ScanList(data);
      part := [ScanListing(rows)];
    }
  }

  /** The module listing, with -m. */
  method PrintModules(flags: Flags, data: PeekData) returns (part: seq<Section>)
    ensures part == ModulePart(flags, ModuleRows(data))
  {
    part := [];
    if flags.doModules > 0 {
      var spans, rows := ModuleSummary(data);
      part := [ModuleListing(rows)];
    }
  }
}
