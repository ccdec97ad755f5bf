/**
 * Grouping of scans into job groups: a single greedy left-to-right pass that
 * drops scans with too few recording antennas and lets each group absorb every
 * later pending scan compatible with the group's last absorbed scan.
 */
module JobGroups {
  import opened Common
  import opened Intervals
  import opened VexModel
  import opened ScanCompat

  /** The scan positions held by the groups, group after group. */
  function Members(gs: seq<JobGroup>): seq<nat>
  {
    if gs == [] then [] else Members(gs[..|gs| - 1]) + gs[|gs| - 1].scans
  }

  /** Scan `b` may join a group whose last absorbed scan is `a`. */
  predicate Absorbs(a: Scan, b: Scan, p: CorrParams, env: Collab)
  {
    && env.overlap(p.window, ScanInterval(b)) > 0.0
    && env.setupsCompatible(a.corrSetupName, b.corrSetupName)
    && AreScansCompatible(a, b, p, env.overlap)
  }

  ghost predicate InSchedule(members: seq<nat>, scans: seq<Scan>)
  {
    forall k :: 0 <= k < |members| ==> members[k] < |scans|
  }

  /** The group's range before clipping: its first scan grown to cover each later member. */
  function Hull(scans: seq<Scan>, members: seq<nat>, env: Collab): Interval
    requires |members| > 0 && InSchedule(members, scans)
  {
    if |members| == 1 then ScanInterval(scans[members[0]])
    else env.logicalOr(Hull(scans, members[..|members| - 1], env),
                       ScanInterval(scans[members[|members| - 1]]))
  }

  /**
   * A group as the pass builds it: non-empty, in schedule order, seeded by a scan
   * with enough recording antennas, each member absorbed after the one before it.
   */
  ghost predicate WellFormedGroup(g: JobGroup, scans: seq<Scan>, p: CorrParams, env: Collab)
  {
    && |g.scans| > 0
    && InSchedule(g.scans, scans)
    && StrictlyIncreasing(g.scans)
    && env.nRecordedAnt(scans[g.scans[0]]) >= p.minSubarraySize
    && forall j :: 0 < j < |g.scans| ==> Absorbs(scans[g.scans[j - 1]], scans[g.scans[j]], p, env)
  }

  /** `s` without its element at `i`: the list erase. */
  function Erase(s: seq<nat>, i: nat): seq<nat>
    requires i < |s|
  {
    s[..i] + s[i + 1..]
  }

  /** Erasing one element of an increasing list keeps it increasing and loses exactly that element. */
  lemma RemoveAt(s: seq<nat>, i: nat)
    requires i < |s| && StrictlyIncreasing(s)
    ensures StrictlyIncreasing(Erase(s, i))
    ensures multiset(s) == multiset(Erase(s, i)) + multiset{s[i]}
    ensures forall j :: i <= j < |s| - 1 ==> s[i] < Erase(s, i)[j]
  {
    assert s == s[..i] + [s[i]] + s[i + 1..];
  }

  /** Appending an absorbed scan to a group keeps the group's chain and hull facts. */
  lemma AbsorbKeepsOrder(scans: seq<Scan>, members: seq<nat>, k: nat, p: CorrParams, env: Collab)
    requires |members| > 0 && InSchedule(members, scans) && StrictlyIncreasing(members) && k < |scans|
    requires members[|members| - 1] < k
    requires forall j :: 0 < j < |members| ==> Absorbs(scans[members[j - 1]], scans[members[j]], p, env)
    requires Absorbs(scans[members[|members| - 1]], scans[k], p, env)
    ensures InSchedule(members + [k], scans) && StrictlyIncreasing(members + [k])
    ensures forall j :: 0 < j < |members + [k]| ==>
      Absorbs(scans[(members + [k])[j - 1]], scans[(members + [k])[j]], p, env)
    ensures Hull(scans, members + [k], env) == env.logicalOr(Hull(scans, members, env), ScanInterval(scans[k]))
  {
    var m := members + [k];
    assert m[..|members|] == members;
    forall j | 0 < j < |m|
      ensures Absorbs(scans[m[j - 1]], scans[m[j]], p, env)
    {
      if j < |members| {
        assert m[j - 1] == members[j - 1] && m[j] == members[j];
      }
    }
    forall i, j | 0 <= i < j < |m|
      ensures m[i] < m[j]
    {
      if j < |members| {
        assert m[i] == members[i] && m[j] == members[j];
      } else {
        assert m[i] == members[i];
      }
    }
  }

  /**
   * The inner pass of genJobGroups as a fold over the pending list, with `last`
   * the group's last absorbed scan: a pending scan that overlaps the window and is
   * compatible with `last` is absorbed and becomes the new `last`; any other stays
   * pending (a scan outside the window fails the first test of `Absorbs`). The
   * result is the absorbed scans and the scans left pending, both in order.
   */
  function Grow(scans: seq<Scan>, pending: seq<nat>, last: nat, p: CorrParams, env: Collab): (r: (seq<nat>, seq<nat>))
    requires last < |scans| && InSchedule(pending, scans)
    ensures |r.0| + |r.1| == |pending|
    ensures InSchedule(r.0, scans) && InSchedule(r.1, scans)
    decreases |pending|
  {
    if pending == [] then ([], [])
    else if Absorbs(scans[last], scans[pending[0]], p, env) then
      var t := Grow(scans, pending[1..], pending[0], p, env);
      ([pending[0]] + t.0, t.1)
    else
      var t := Grow(scans, pending[1..], last, p, env);
      (t.0, [pending[0]] + t.1)
  }

  /** The absorbed and the kept scans are drawn from the pending list and split it. */
  lemma {:induction false} GrowSplits(scans: seq<Scan>, pending: seq<nat>, last: nat, p: CorrParams, env: Collab)
    requires last < |scans| && InSchedule(pending, scans)
    ensures var r := Grow(scans, pending, last, p, env);
      multiset(r.0) + multiset(r.1) == multiset(pending)
    decreases |pending|
  {
    if pending != [] {
      GrowSplits(scans, pending[1..], pending[0], p, env);
      GrowSplits(scans, pending[1..], last, p, env);
      assert pending == [pending[0]] + pending[1..];
    }
  }

  /** A bound below every pending scan is below every absorbed and every kept scan. */
  lemma GrowAbove(scans: seq<Scan>, pending: seq<nat>, last: nat, x: nat, p: CorrParams, env: Collab)
    requires last < |scans| && InSchedule(pending, scans)
    requires forall j :: 0 <= j < |pending| ==> x < pending[j]
    ensures var r := Grow(scans, pending, last, p, env);
      (forall j :: 0 <= j < |r.0| ==> x < r.0[j]) && (forall j :: 0 <= j < |r.1| ==> x < r.1[j])
  {
    var r := Grow(scans, pending, last, p, env);
    GrowSplits(scans, pending, last, p, env);
    forall j | 0 <= j < |r.0|
      ensures x < r.0[j]
    {
      assert r.0[j] in multiset(pending);
    }
    forall j | 0 <= j < |r.1|
      ensures x < r.1[j]
    {
      assert r.1[j] in multiset(pending);
    }
  }

  /** One step of the inner fold: the front scan is absorbed or kept. */
  lemma GrowUnfold(scans: seq<Scan>, pending: seq<nat>, last: nat, p: CorrParams, env: Collab)
    requires last < |scans| && InSchedule(pending, scans) && |pending| > 0
    ensures var x := pending[0];
      var r := Grow(scans, pending, last, p, env);
      if Absorbs(scans[last], scans[x], p, env) then
        r == ([x] + Grow(scans, pending[1..], x, p, env).0, Grow(scans, pending[1..], x, p, env).1)
      else
        r == (Grow(scans, pending[1..], last, p, env).0, [x] + Grow(scans, pending[1..], last, p, env).1)
  {
  }

  /** The front of an increasing list is below the rest, which stays increasing. */
  lemma IncreasingTail(s: seq<nat>)
    requires |s| > 0 && StrictlyIncreasing(s)
    ensures StrictlyIncreasing(s[1..]) && forall j :: 0 <= j < |s[1..]| ==> s[0] < s[1..][j]
  {
  }

  /** The kept scans stay in schedule order. */
  lemma {:induction false} GrowSorted(scans: seq<Scan>, pending: seq<nat>, last: nat, p: CorrParams, env: Collab)
    requires last < |scans| && InSchedule(pending, scans) && StrictlyIncreasing(pending)
    ensures StrictlyIncreasing(Grow(scans, pending, last, p, env).1)
    decreases |pending|
  {
    if pending != [] {
      var x := pending[0];
      var tail := pending[1..];
      var next := if Absorbs(scans[last], scans[x], p, env) then x else last;
      IncreasingTail(pending);
      GrowUnfold(scans, pending, last, p, env);
      GrowSorted(scans, tail, next, p, env);
      GrowAbove(scans, tail, next, x, p, env);
    }
  }

  /**
   * Every scan in `kept` failed the absorption test against the chain element
   * absorbed last before it: `c[i]` with `c[i] < kept[j]` and `kept[j] < c[i + 1]`
   * (or `c[i]` the final chain element).
   */
  ghost predicate LeftBehind(scans: seq<Scan>, c: seq<nat>, kept: seq<nat>, p: CorrParams, env: Collab)
  {
    && InSchedule(c, scans) && InSchedule(kept, scans)
    && forall j :: 0 <= j < |kept| ==> Refused(scans, c, kept[j], p, env)
  }

  /** Scan `x` failed the absorption test against the element of chain `c` absorbed last before it. */
  ghost predicate Refused(scans: seq<Scan>, c: seq<nat>, x: nat, p: CorrParams, env: Collab)
    requires InSchedule(c, scans) && x < |scans|
  {
    forall i :: 0 <= i < |c| && c[i] < x && (i + 1 == |c| || x < c[i + 1]) ==> !Absorbs(scans[c[i]], scans[x], p, env)
  }

  /** Putting an earlier chain element in front of the chain keeps the kept scans' failures. */
  lemma LeftBehindAbsorb(scans: seq<Scan>, last: nat, c: seq<nat>, kept: seq<nat>, p: CorrParams, env: Collab)
    requires last < |scans| && |c| > 0 && LeftBehind(scans, c, kept, p, env)
    requires forall j :: 0 <= j < |kept| ==> c[0] < kept[j]
    ensures LeftBehind(scans, [last] + c, kept, p, env)
  {
    var c' := [last] + c;
    forall i, j | 0 <= i < |c'| && 0 <= j < |kept| && c'[i] < kept[j] && (i + 1 == |c'| || kept[j] < c'[i + 1])
      ensures !Absorbs(scans[c'[i]], scans[kept[j]], p, env)
    {
      assert Refused(scans, c, kept[j], p, env);
      if i == 0 {
        assert false;
      } else {
        assert c'[i] == c[i - 1];
        assert i - 1 + 1 == |c| || kept[j] < c[i - 1 + 1];
      }
    }
  }

  /** A scan that failed the test against the chain's first element, before every later one, joins the kept scans. */
  lemma LeftBehindKeep(scans: seq<Scan>, x: nat, c: seq<nat>, kept: seq<nat>, p: CorrParams, env: Collab)
    requires x < |scans| && |c| > 0 && LeftBehind(scans, c, kept, p, env)
    requires !Absorbs(scans[c[0]], scans[x], p, env)
    requires forall i :: 0 < i < |c| ==> x < c[i]
    ensures LeftBehind(scans, c, [x] + kept, p, env)
  {
    var k' := [x] + kept;
    forall i, j | 0 <= i < |c| && 0 <= j < |k'| && c[i] < k'[j] && (i + 1 == |c| || k'[j] < c[i + 1])
      ensures !Absorbs(scans[c[i]], scans[k'[j]], p, env)
    {
      if j == 0 {
        if i > 0 {
          assert false;
        }
      } else {
        assert k'[j] == kept[j - 1];
        assert Refused(scans, c, kept[j - 1], p, env);
      }
    }
  }

  /**
   * Maximality of the inner pass: with the pending list in schedule order after
   * `last`, every scan left pending failed the absorption test against the last
   * scan the group had absorbed before it. So a pending scan that overlaps the
   * window and is compatible with the group's last absorbed scan at its turn is
   * never left behind.
   */
  lemma {:induction false} GrowMaximal(scans: seq<Scan>, pending: seq<nat>, last: nat, p: CorrParams, env: Collab)
    requires last < |scans| && InSchedule(pending, scans) && StrictlyIncreasing(pending)
    requires forall j :: 0 <= j < |pending| ==> last < pending[j]
    ensures var r := Grow(scans, pending, last, p, env);
      LeftBehind(scans, [last] + r.0, r.1, p, env)
    decreases |pending|
  {
    if pending != [] {
      var x := pending[0];
      var tail := pending[1..];
      IncreasingTail(pending);
      GrowUnfold(scans, pending, last, p, env);
      if Absorbs(scans[last], scans[x], p, env) {
        var t := Grow(scans, tail, x, p, env);
        GrowMaximal(scans, tail, x, p, env);
        GrowAbove(scans, tail, x, x, p, env);
        LeftBehindAbsorb(scans, last, [x] + t.0, t.1, p, env);
        assert [last] + ([x] + t.0) == [last] + Grow(scans, pending, last, p, env).0;
      } else {
        var t := Grow(scans, tail, last, p, env);
        GrowMaximal(scans, tail, last, p, env);
        GrowAbove(scans, tail, last, x, p, env);
        LeftBehindKeep(scans, x, [last] + t.0, t.1, p, env);
      }
    }
  }

  /**
   * The state of the inner pass: the group so far is seeded by `first` and
   * chained by absorption, `range` is its hull, the pending scans before `i` were
   * skipped, those from `i` on all follow the last member, and every scan is in
   * the group or still pending.
   */
  ghost predicate GrowState(scans: seq<Scan>, pending: seq<nat>, first: nat, p: CorrParams, env: Collab,
                            members: seq<nat>, range: Interval, rest: seq<nat>, i: nat)
  {
    && i <= |rest|
    && StrictlyIncreasing(rest) && InSchedule(rest, scans)
    && |members| > 0 && members[0] == first
    && InSchedule(members, scans) && StrictlyIncreasing(members)
    && (forall j :: i <= j < |rest| ==> members[|members| - 1] < rest[j])
    && (forall j :: 0 < j < |members| ==> Absorbs(scans[members[j - 1]], scans[members[j]], p, env))
    && range == Hull(scans, members, env)
    && multiset(members) + multiset(rest) == multiset{first} + multiset(pending)
    && |members| + |rest| == 1 + |pending|
  }

  /** Absorbing the pending scan at `i` keeps the inner pass state. */
  lemma AbsorbStep(scans: seq<Scan>, pending: seq<nat>, first: nat, p: CorrParams, env: Collab,
                   members: seq<nat>, range: Interval, rest: seq<nat>, i: nat)
    requires GrowState(scans, pending, first, p, env, members, range, rest, i) && i < |rest|
    requires Absorbs(scans[members[|members| - 1]], scans[rest[i]], p, env)
    ensures GrowState(scans, pending, first, p, env, members + [rest[i]],
                      env.logicalOr(range, ScanInterval(scans[rest[i]])), Erase(rest, i), i)
  {
    RemoveAt(rest, i);
    AbsorbKeepsOrder(scans, members, rest[i], p, env);
  }

  /**
   * The inner pass measured against the fold: the scans absorbed so far and the
   * scans kept before `i`, followed by what the fold does with the unvisited
   * scans from the last absorbed one, are what the fold does from `first`.
   */
  ghost predicate GrowTracks(scans: seq<Scan>, pending: seq<nat>, first: nat, p: CorrParams, env: Collab,
                             members: seq<nat>, rest: seq<nat>, i: nat)
  {
    && first < |scans| && InSchedule(pending, scans)
    && |members| > 0 && members[|members| - 1] < |scans|
    && i <= |rest| && InSchedule(rest[i..], scans)
    && Grow(scans, pending, first, p, env).0 == members[1..] + Grow(scans, rest[i..], members[|members| - 1], p, env).0
    && Grow(scans, pending, first, p, env).1 == rest[..i] + Grow(scans, rest[i..], members[|members| - 1], p, env).1
  }

  /** Passing over a scan that is not absorbed keeps the inner pass on the fold. */
  lemma SkipTracks(scans: seq<Scan>, pending: seq<nat>, first: nat, p: CorrParams, env: Collab,
                   members: seq<nat>, rest: seq<nat>, i: nat)
    requires GrowTracks(scans, pending, first, p, env, members, rest, i) && i < |rest|
    requires !Absorbs(scans[members[|members| - 1]], scans[rest[i]], p, env)
    ensures GrowTracks(scans, pending, first, p, env, members, rest, i + 1)
  {
    assert rest[i..][1..] == rest[i + 1..];
    assert rest[..i + 1] == rest[..i] + [rest[i]];
  }

  /** Absorbing the scan at `i` keeps the inner pass on the fold. */
  lemma AbsorbTracks(scans: seq<Scan>, pending: seq<nat>, first: nat, p: CorrParams, env: Collab,
                     members: seq<nat>, rest: seq<nat>, i: nat)
    requires GrowTracks(scans, pending, first, p, env, members, rest, i) && i < |rest|
    requires Absorbs(scans[members[|members| - 1]], scans[rest[i]], p, env)
    ensures GrowTracks(scans, pending, first, p, env, members + [rest[i]], Erase(rest, i), i)
  {
    assert rest[i..][1..] == rest[i + 1..];
    assert (members + [rest[i]])[1..] == members[1..] + [rest[i]];
    assert Erase(rest, i)[i..] == rest[i + 1..] && Erase(rest, i)[..i] == rest[..i];
  }

  /** Once every pending scan is visited the inner pass has done what the fold does. */
  lemma TracksDone(scans: seq<Scan>, pending: seq<nat>, first: nat, p: CorrParams, env: Collab,
                   members: seq<nat>, rest: seq<nat>)
    requires GrowTracks(scans, pending, first, p, env, members, rest, |rest|) && members[0] == first
    ensures members == [first] + Grow(scans, pending, first, p, env).0
    ensures rest == Grow(scans, pending, first, p, env).1
  {
    assert rest[..|rest|] == rest;
    assert members == [first] + members[1..];
  }

  /**
   * A group grown from seed `first` over the pending list: seeded by `first`, in
   * schedule order, each member absorbable after the one before it, `range` its
   * hull, and the group with the scans `rest` left pending (in order) accounting
   * for exactly the seed and the pending list.
   */
  ghost predicate Grown(scans: seq<Scan>, pending: seq<nat>, first: nat, p: CorrParams, env: Collab,
                        members: seq<nat>, range: Interval, rest: seq<nat>)
  {
    && |members| > 0 && members[0] == first
    && InSchedule(members, scans) && StrictlyIncreasing(members)
    && (forall j :: 0 < j < |members| ==> Absorbs(scans[members[j - 1]], scans[members[j]], p, env))
    && range == Hull(scans, members, env)
    && InSchedule(rest, scans) && StrictlyIncreasing(rest)
    && multiset(members) + multiset(rest) == multiset{first} + multiset(pending)
    && |rest| <= |pending|
  }

  /** Once every pending scan is visited the inner pass state gives a grown group. */
  lemma StateDone(scans: seq<Scan>, pending: seq<nat>, first: nat, p: CorrParams, env: Collab,
                  members: seq<nat>, range: Interval, rest: seq<nat>)
    requires GrowState(scans, pending, first, p, env, members, range, rest, |rest|)
    ensures Grown(scans, pending, first, p, env, members, range, rest)
  {
  }

  /**
   * The inner pass of genJobGroups: starting from the seed scan `first`, walk the
   * pending scans in order and absorb each one that overlaps the configured window
   * and is compatible with the last absorbed scan; absorbed scans leave the pending
   * list, the others stay in order.
   */
  method GrowGroup(scans: seq<Scan>, pending: seq<nat>, first: nat, p: CorrParams, env: Collab)
    returns (members: seq<nat>, range: Interval, rest: seq<nat>)
    requires first < |scans| && InSchedule(pending, scans) && StrictlyIncreasing(pending)
    requires forall j :: 0 <= j < |pending| ==> first < pending[j]
    ensures Grown(scans, pending, first, p, env, members, range, rest)
    ensures members == [first] + Grow(scans, pending, first, p, env).0
    ensures rest == Grow(scans, pending, first, p, env).1
  {
    members := [first];
    range := ScanInterval(scans[first]);
    rest := pending;
    var last := scans[first];
    var i := 0;
    while i < |rest|
      invariant GrowState(scans, pending, first, p, env, members, range, rest, i)
      invariant last == scans[members[|members| - 1]]
      invariant GrowTracks(scans, pending, first, p, env, members, rest, i)
      decreases |rest| - i
    {
      var next := scans[rest[i]];
      if env.overlap(p.window, ScanInterval(next)) <= 0.0 {
        SkipTracks(scans, pending, first, p, env, members, rest, i);
        i := i + 1;
        continue;
      }
      if env.setupsCompatible(last.corrSetupName, next.corrSetupName) && AreScansCompatible(last, next, p, env.overlap) {
        AbsorbStep(scans, pending, first, p, env, members, range, rest, i);
        AbsorbTracks(scans, pending, first, p, env, members, rest, i);
        range := env.logicalOr(range, ScanInterval(next));
        members := members + [rest[i]];
        rest := Erase(rest, i);
        last := next;
      } else {
        SkipTracks(scans, pending, first, p, env, members, rest, i);
        i := i + 1;
      }
    }
    TracksDone(scans, pending, first, p, env, members, rest);
    StateDone(scans, pending, first, p, env, members, range, rest);
  }

  /**
   * The second pass of genJobGroups: each group takes the events of its grown
   * range and is then clipped to the configured window.
   */
  method ClipGroups(formed: seq<JobGroup>, events: seq<Event>, p: CorrParams, env: Collab)
    returns (groups: seq<JobGroup>)
    ensures |groups| == |formed|
    ensures forall h :: 0 <= h < |groups| ==>
      && groups[h].scans == formed[h].scans
      && groups[h].range == env.logicalAnd(formed[h].range, p.window)
      && groups[h].events == env.genEvents(formed[h].range, events)
    ensures Members(groups) == Members(formed)
  {
    groups := [];
    var g := 0;
    while g < |formed|
      invariant 0 <= g <= |formed|
      invariant |groups| == g
      invariant forall h :: 0 <= h < g ==>
        && groups[h].scans == formed[h].scans
        && groups[h].range == env.logicalAnd(formed[h].range, p.window)
        && groups[h].events == env.genEvents(formed[h].range, events)
      invariant Members(groups) == Members(formed[..g])
    {
      var jg := formed[g];
      var clipped := JobGroup(jg.scans, env.logicalAnd(jg.range, p.window), env.genEvents(jg.range, events));
      assert formed[..g + 1][..g] == formed[..g];
      assert (groups + [clipped])[..g] == groups;
      groups := groups + [clipped];
      g := g + 1;
    }
    assert formed[..|formed|] == formed;
  }

  /** What the multiset bookkeeping of the pass gives once nothing is pending. */
  lemma PartitionFacts(members: seq<nat>, dropped: seq<nat>, n: nat)
    requires multiset(members) + multiset(dropped) == multiset(Range(n))
    ensures NoDup(members)
    ensures forall k | k in members :: k < n
    ensures |members| + |dropped| == n
    ensures forall k :: 0 <= k < n && k !in members ==> k in dropped
  {
    forall x
      ensures multiset(members)[x] <= 1
    {
      RangeMultiplicity(n, x);
    }
    MultiplicityOneNoDup(members);
    forall k | k in members
      ensures k < n
    {
      RangeMultiplicity(n, k);
    }
    forall k | 0 <= k < n && k !in members
      ensures k in dropped
    {
      RangeMultiplicity(n, k);
      assert k in multiset(dropped);
    }
    assert |multiset(members) + multiset(dropped)| == |multiset(Range(n))|;
  }

  /** Popping the front of an increasing pending list. */
  lemma PopFront(pending: seq<nat>, scans: seq<Scan>)
    requires |pending| > 0 && StrictlyIncreasing(pending) && InSchedule(pending, scans)
    ensures StrictlyIncreasing(pending[1..]) && InSchedule(pending[1..], scans)
    ensures forall j :: 0 <= j < |pending[1..]| ==> pending[0] < pending[1..][j]
    ensures multiset(pending) == multiset{pending[0]} + multiset(pending[1..])
  {
    assert pending == [pending[0]] + pending[1..];
  }

  /** Every group formed so far is well formed and carries its grown range. */
  ghost predicate AllFormed(gs: seq<JobGroup>, scans: seq<Scan>, p: CorrParams, env: Collab)
  {
    forall h :: 0 <= h < |gs| ==> WellFormedGroup(gs[h], scans, p, env) && gs[h].range == Hull(scans, gs[h].scans, env)
  }

  lemma AppendGroup(gs: seq<JobGroup>, g: JobGroup, scans: seq<Scan>, p: CorrParams, env: Collab)
    requires AllFormed(gs, scans, p, env)
    requires WellFormedGroup(g, scans, p, env) && g.range == Hull(scans, g.scans, env)
    ensures AllFormed(gs + [g], scans, p, env)
    ensures Members(gs + [g]) == Members(gs) + g.scans
  {
    assert (gs + [g])[..|gs|] == gs;
  }

  /**
   * The state of the first pass: the pending list stays in schedule order, every
   * scan is in exactly one of the formed groups, the dropped scans and the pending
   * list, and only scans with too few recording antennas were dropped.
   */
  ghost predicate PassState(formed: seq<JobGroup>, dropped: seq<nat>, pending: seq<nat>,
                            scans: seq<Scan>, p: CorrParams, env: Collab)
  {
    && StrictlyIncreasing(pending) && InSchedule(pending, scans)
    && multiset(Members(formed)) + multiset(dropped) + multiset(pending) == multiset(Range(|scans|))
    && (forall j :: 0 <= j < |dropped| ==> dropped[j] < |scans| && env.nRecordedAnt(scans[dropped[j]]) < p.minSubarraySize)
    && AllFormed(formed, scans, p, env)
  }

  /** What the pass may rely on about the pending list when it pops its front. */
  lemma PassFront(formed: seq<JobGroup>, dropped: seq<nat>, pending: seq<nat>,
                  scans: seq<Scan>, p: CorrParams, env: Collab)
    requires PassState(formed, dropped, pending, scans, p, env) && |pending| > 0
    ensures pending[0] < |scans|
    ensures StrictlyIncreasing(pending[1..]) && InSchedule(pending[1..], scans)
    ensures forall j :: 0 <= j < |pending[1..]| ==> pending[0] < pending[1..][j]
  {
    PopFront(pending, scans);
  }

  /** Dropping the front scan keeps the pass state. */
  lemma DropStep(formed: seq<JobGroup>, dropped: seq<nat>, pending: seq<nat>,
                 scans: seq<Scan>, p: CorrParams, env: Collab)
    requires PassState(formed, dropped, pending, scans, p, env) && |pending| > 0
    requires env.nRecordedAnt(scans[pending[0]]) < p.minSubarraySize
    ensures PassState(formed, dropped + [pending[0]], pending[1..], scans, p, env)
  {
    PopFront(pending, scans);
    assert multiset(dropped + [pending[0]]) == multiset(dropped) + multiset{pending[0]};
  }

  /** Forming a group from the front scan and the scans it absorbed keeps the pass state. */
  lemma GroupStep(formed: seq<JobGroup>, dropped: seq<nat>, pending: seq<nat>, jg: JobGroup, rest: seq<nat>,
                  scans: seq<Scan>, p: CorrParams, env: Collab)
    requires PassState(formed, dropped, pending, scans, p, env) && |pending| > 0
    requires env.nRecordedAnt(scans[pending[0]]) >= p.minSubarraySize
    requires Grown(scans, pending[1..], pending[0], p, env, jg.scans, jg.range, rest)
    ensures PassState(formed + [jg], dropped, rest, scans, p, env)
  {
    PopFront(pending, scans);
    assert WellFormedGroup(jg, scans, p, env);
    AppendGroup(formed, jg, scans, p, env);
    assert multiset(Members(formed + [jg])) == multiset(Members(formed)) + multiset(jg.scans);
  }

  /** What the pass state gives once nothing is pending. */
  lemma PassDone(formed: seq<JobGroup>, dropped: seq<nat>, scans: seq<Scan>, p: CorrParams, env: Collab)
    requires PassState(formed, dropped, [], scans, p, env)
    ensures NoDup(Members(formed))
    ensures forall k | k in Members(formed) :: k < |scans|
    ensures |Members(formed)| + |dropped| == |scans|
    ensures forall k :: 0 <= k < |scans| && k !in Members(formed) ==>
              env.nRecordedAnt(scans[k]) < p.minSubarraySize
  {
    PartitionFacts(Members(formed), dropped, |scans|);
    forall k | 0 <= k < |scans| && k !in Members(formed)
      ensures env.nRecordedAnt(scans[k]) < p.minSubarraySize
    {
      var j :| 0 <= j < |dropped| && dropped[j] == k;
    }
  }

  /**
   * The first pass of genJobGroups as a fold over the pending list: the front scan
   * is dropped when it has too few recording antennas, otherwise it seeds a group
   * that takes the scans `Grow` absorbs, and the pass goes on with the scans
   * `Grow` kept. The result is each group's scans, in the order the groups are
   * formed, and the number of dropped scans.
   */
  function Pass(scans: seq<Scan>, pending: seq<nat>, p: CorrParams, env: Collab): (r: (seq<seq<nat>>, nat))
    requires InSchedule(pending, scans)
    ensures forall h :: 0 <= h < |r.0| ==> |r.0[h]| > 0 && InSchedule(r.0[h], scans)
    decreases |pending|
  {
    if pending == [] then ([], 0)
    else if env.nRecordedAnt(scans[pending[0]]) < p.minSubarraySize then
      var t := Pass(scans, pending[1..], p, env);
      (t.0, t.1 + 1)
    else
      var g := Grow(scans, pending[1..], pending[0], p, env);
      var t := Pass(scans, g.1, p, env);
      ([[pending[0]] + g.0] + t.0, t.1)
  }

  /**
   * Every scan of a group after group `h` of `ls` failed the absorption test
   * against the scan group `h` had absorbed last before it.
   */
  ghost predicate LaterRefused(scans: seq<Scan>, ls: seq<seq<nat>>, h: nat, p: CorrParams, env: Collab)
  {
    && h < |ls| && InSchedule(ls[h], scans)
    && forall h', j | h < h' < |ls| && 0 <= j < |ls[h']| :: ls[h'][j] < |scans| && Refused(scans, ls[h], ls[h'][j], p, env)
  }

  /** A group whose scans left behind every scan of the later groups. */
  lemma LaterRefusedFirst(scans: seq<Scan>, c: seq<nat>, kept: seq<nat>, later: seq<seq<nat>>, p: CorrParams, env: Collab)
    requires LeftBehind(scans, c, kept, p, env) && DrawnFrom(later, kept)
    ensures LaterRefused(scans, [c] + later, 0, p, env)
  {
    var ls := [c] + later;
    forall h', i | 0 < h' < |ls| && 0 <= i < |ls[h']|
      ensures ls[h'][i] < |scans| && Refused(scans, ls[0], ls[h'][i], p, env)
    {
      var k := ls[h'][i];
      assert ls[h'] == later[h' - 1] && k in later[h' - 1];
      assert k in kept;
      var j :| 0 <= j < |kept| && kept[j] == k;
    }
  }

  /** Putting an earlier group in front shifts the property to the next group. */
  lemma LaterRefusedCons(scans: seq<Scan>, c: seq<nat>, later: seq<seq<nat>>, h: nat, p: CorrParams, env: Collab)
    requires 0 < h && LaterRefused(scans, later, h - 1, p, env)
    ensures LaterRefused(scans, [c] + later, h, p, env)
  {
    var ls := [c] + later;
    forall h', i | h < h' < |ls| && 0 <= i < |ls[h']|
      ensures ls[h'][i] < |scans| && Refused(scans, ls[h], ls[h'][i], p, env)
    {
      assert ls[h'] == later[h' - 1] && ls[h] == later[h - 1];
    }
  }

  /** One step of the fold when the front scan is dropped. */
  lemma PassDropUnfold(scans: seq<Scan>, pending: seq<nat>, p: CorrParams, env: Collab)
    requires InSchedule(pending, scans) && |pending| > 0
    requires env.nRecordedAnt(scans[pending[0]]) < p.minSubarraySize
    ensures Pass(scans, pending, p, env) == (Pass(scans, pending[1..], p, env).0, Pass(scans, pending[1..], p, env).1 + 1)
  {
  }

  /**
   * Maximality of the first pass: a scan that lands in a later group was still
   * pending when group `h` was formed, and failed the absorption test against the
   * scan group `h` had absorbed last before it.
   */
  lemma {:induction false} PassMaximal(scans: seq<Scan>, pending: seq<nat>, p: CorrParams, env: Collab, h: nat)
    requires InSchedule(pending, scans) && StrictlyIncreasing(pending)
    requires h < |Pass(scans, pending, p, env).0|
    ensures LaterRefused(scans, Pass(scans, pending, p, env).0, h, p, env)
    decreases |pending|
  {
    var x := pending[0];
    var tail := pending[1..];
    if env.nRecordedAnt(scans[x]) < p.minSubarraySize {
      PassDropUnfold(scans, pending, p, env);
      PassMaximal(scans, tail, p, env, h);
    } else {
      var g := Grow(scans, tail, x, p, env);
      PassUnfold(scans, pending, p, env);
      GrowSorted(scans, tail, x, p, env);
      if h == 0 {
        GrowMaximal(scans, tail, x, p, env);
        PassMembers(scans, g.1, p, env);
        LaterRefusedFirst(scans, [x] + g.0, g.1, Pass(scans, g.1, p, env).0, p, env);
      } else {
        PassMaximal(scans, g.1, p, env, h - 1);
        LaterRefusedCons(scans, [x] + g.0, Pass(scans, g.1, p, env).0, h, p, env);
      }
    }
  }

  /**
   * The groups genJobGroups produces: the first pass's scan lists, each group
   * taking the events of its grown range and then clipped to the window.
   */
  function Groups(scans: seq<Scan>, events: seq<Event>, p: CorrParams, env: Collab): (gs: seq<JobGroup>)
    ensures |gs| == |PassAll(scans, p, env).0|
  {
    var ls := PassAll(scans, p, env).0;
    seq(|ls|, h requires 0 <= h < |ls| =>
      JobGroup(ls[h], env.logicalAnd(Hull(scans, ls[h], env), p.window), env.genEvents(Hull(scans, ls[h], env), events)))
  }

  /** The first pass over the whole schedule, in schedule order. */
  function PassAll(scans: seq<Scan>, p: CorrParams, env: Collab): (seq<seq<nat>>, nat)
  {
    Pass(scans, Range(|scans|), p, env)
  }

  /** The first pass starts with no group formed, nothing dropped and the whole schedule pending. */
  lemma PassAllStart(scans: seq<Scan>, p: CorrParams, env: Collab)
    ensures PassTracks(scans, Range(|scans|), p, env, [], 0, PassAll(scans, p, env))
  {
    assert ScanLists([]) == [];
  }

  /** Both parts of a split of `pool` are drawn from `pool`. */
  lemma SplitMembers(a: seq<nat>, b: seq<nat>, pool: seq<nat>)
    requires multiset(a) + multiset(b) == multiset(pool)
    ensures forall k | k in a :: k in pool
    ensures forall k | k in b :: k in pool
  {
    forall k | k in a
      ensures k in pool
    {
      assert k in multiset(pool);
    }
    forall k | k in b
      ensures k in pool
    {
      assert k in multiset(pool);
    }
  }

  /** Every scan of the groups `ls` is in `pool`. */
  ghost predicate DrawnFrom(ls: seq<seq<nat>>, pool: seq<nat>)
  {
    forall h, k | 0 <= h < |ls| && k in ls[h] :: k in pool
  }

  /** Every scan the fold puts in a group was pending. */
  lemma {:induction false} PassMembers(scans: seq<Scan>, pending: seq<nat>, p: CorrParams, env: Collab)
    requires InSchedule(pending, scans)
    ensures DrawnFrom(Pass(scans, pending, p, env).0, pending)
    decreases |pending|
  {
    if pending != [] {
      var x := pending[0];
      var tail := pending[1..];
      assert pending == [x] + tail;
      SplitMembers([x], tail, pending);
      if env.nRecordedAnt(scans[x]) < p.minSubarraySize {
        PassMembers(scans, tail, p, env);
      } else {
        var g := Grow(scans, tail, x, p, env);
        GrowSplits(scans, tail, x, p, env);
        SplitMembers(g.0, g.1, tail);
        PassMembers(scans, g.1, p, env);
        var rest := Pass(scans, g.1, p, env).0;
        var ls := [[x] + g.0] + rest;
        assert Pass(scans, pending, p, env).0 == ls;
        forall h, k | 0 <= h < |ls| && k in ls[h]
          ensures k in pending
        {
          if h > 0 {
            assert ls[h] == rest[h - 1];
          }
        }
      }
    }
  }

  /** The scan lists of the groups, group by group. */
  function ScanLists(gs: seq<JobGroup>): (r: seq<seq<nat>>)
    ensures |r| == |gs| && forall h :: 0 <= h < |gs| ==> r[h] == gs[h].scans
  {
    seq(|gs|, h requires 0 <= h < |gs| => gs[h].scans)
  }

  /**
   * The first pass measured against the fold, whose whole result is `whole`: the
   * groups formed so far followed by the fold's groups over the pending list are
   * the fold's groups, and likewise for the drop count.
   */
  ghost predicate PassTracks(scans: seq<Scan>, pending: seq<nat>, p: CorrParams, env: Collab,
                             formed: seq<JobGroup>, nNoRecordScan: nat, whole: (seq<seq<nat>>, nat))
  {
    && InSchedule(pending, scans)
    && ScanLists(formed) + Pass(scans, pending, p, env).0 == whole.0
    && nNoRecordScan + Pass(scans, pending, p, env).1 == whole.1
  }

  /** One step of the fold when the front scan seeds a group. */
  lemma PassUnfold(scans: seq<Scan>, pending: seq<nat>, p: CorrParams, env: Collab)
    requires InSchedule(pending, scans) && |pending| > 0
    requires env.nRecordedAnt(scans[pending[0]]) >= p.minSubarraySize
    ensures var g := Grow(scans, pending[1..], pending[0], p, env);
      Pass(scans, pending, p, env) == ([[pending[0]] + g.0] + Pass(scans, g.1, p, env).0, Pass(scans, g.1, p, env).1)
  {
  }

  /** Dropping the front scan keeps the first pass on the fold. */
  lemma PassDropTracks(scans: seq<Scan>, pending: seq<nat>, p: CorrParams, env: Collab,
                       formed: seq<JobGroup>, nNoRecordScan: nat, whole: (seq<seq<nat>>, nat))
    requires PassTracks(scans, pending, p, env, formed, nNoRecordScan, whole) && |pending| > 0
    requires env.nRecordedAnt(scans[pending[0]]) < p.minSubarraySize
    ensures PassTracks(scans, pending[1..], p, env, formed, nNoRecordScan + 1, whole)
  {
  }

  /** Forming a group from the front scan keeps the first pass on the fold. */
  lemma PassGroupTracks(scans: seq<Scan>, pending: seq<nat>, p: CorrParams, env: Collab,
                        formed: seq<JobGroup>, nNoRecordScan: nat, jg: JobGroup, whole: (seq<seq<nat>>, nat))
    requires PassTracks(scans, pending, p, env, formed, nNoRecordScan, whole) && |pending| > 0
    requires env.nRecordedAnt(scans[pending[0]]) >= p.minSubarraySize
    requires jg.scans == [pending[0]] + Grow(scans, pending[1..], pending[0], p, env).0
    ensures PassTracks(scans, Grow(scans, pending[1..], pending[0], p, env).1, p, env, formed + [jg], nNoRecordScan, whole)
  {
    var g := Grow(scans, pending[1..], pending[0], p, env);
    var t := Pass(scans, g.1, p, env);
    PassUnfold(scans, pending, p, env);
    var a := ScanLists(formed);
    assert ScanLists(formed + [jg]) == a + [jg.scans];
    assert (a + [jg.scans]) + t.0 == a + ([jg.scans] + t.0);
  }

  /** Once nothing is pending the first pass has done what the fold does. */
  lemma PassTracksDone(scans: seq<Scan>, p: CorrParams, env: Collab,
                       formed: seq<JobGroup>, nNoRecordScan: nat, whole: (seq<seq<nat>>, nat))
    requires PassTracks(scans, [], p, env, formed, nNoRecordScan, whole)
    ensures ScanLists(formed) == whole.0 && nNoRecordScan == whole.1
  {
    assert ScanLists(formed) + [] == ScanLists(formed);
  }

  /**
   * The first pass of genJobGroups: pop scans off the front of the pending list;
   * a scan with too few recording antennas is counted and dropped, any other seeds
   * a new group that then absorbs compatible pending scans.
   */
  method FormGroups(scans: seq<Scan>, p: CorrParams, env: Collab)
    returns (formed: seq<JobGroup>, nNoRecordScan: nat)
    ensures AllFormed(formed, scans, p, env)
    ensures NoDup(Members(formed))
    ensures forall k | k in Members(formed) :: k < |scans|
    ensures |Members(formed)| + nNoRecordScan == |scans|
    ensures forall k :: 0 <= k < |scans| && k !in Members(formed) ==>
              env.nRecordedAnt(scans[k]) < p.minSubarraySize
    ensures ScanLists(formed) == PassAll(scans, p, env).0
    ensures nNoRecordScan == PassAll(scans, p, env).1
  {
    var pending: seq<nat> := Range(|scans|);
    ghost var whole := PassAll(scans, p, env);
    PassAllStart(scans, p, env);
    formed := [];
    ghost var dropped: seq<nat> := [];
    nNoRecordScan := 0;
    while |pending| > 0
      invariant PassState(formed, dropped, pending, scans, p, env)
      invariant nNoRecordScan == |dropped|
      invariant PassTracks(scans, pending, p, env, formed, nNoRecordScan, whole)
      decreases |pending|
    {
      PassFront(formed, dropped, pending, scans, p, env);
      var first := pending[0];
      if env.nRecordedAnt(scans[first]) < p.minSubarraySize {
        DropStep(formed, dropped, pending, scans, p, env);
        PassDropTracks(scans, pending, p, env, formed, nNoRecordScan, whole);
        pending := pending[1..];
        dropped := dropped + [first];
        nNoRecordScan := nNoRecordScan + 1;
        continue;
      }
      var members, range, rest := GrowGroup(scans, pending[1..], first, p, env);
      var jg := JobGroup(members, range, []);
      GroupStep(formed, dropped, pending, jg, rest, scans, p, env);
      PassGroupTracks(scans, pending, p, env, formed, nNoRecordScan, jg, whole);
      pending := rest;
      formed := formed + [jg];
    }
    PassDone(formed, dropped, scans, p, env);
    PassTracksDone(scans, p, env, formed, nNoRecordScan, whole);
  }

  /**
   * genJobGroups. Every scan of the schedule either lands in exactly one group or
   * is counted in `nNoRecordScan`, and only scans with too few recording antennas
   * are counted there. The groups are those of the fold `Pass`, each seeded by
   * the front of the list still pending and grown by `Grow`, so no scan a group
   * could have absorbed at its turn is left for a later group (`PassMaximal`).
   * Each group's events and clipped range are derived from its grown range.
   */
  method GenJobGroups(scans: seq<Scan>, events: seq<Event>, p: CorrParams, env: Collab)
    returns (groups: seq<JobGroup>, nNoRecordScan: nat)
    ensures forall g | g in groups ::
      && WellFormedGroup(g, scans, p, env)
      && g.range == env.logicalAnd(Hull(scans, g.scans, env), p.window)
      && g.events == env.genEvents(Hull(scans, g.scans, env), events)
    ensures NoDup(Members(groups))
    ensures forall k | k in Members(groups) :: k < |scans|
    ensures |Members(groups)| + nNoRecordScan == |scans|
    ensures forall k :: 0 <= k < |scans| && k !in Members(groups) ==>
              env.nRecordedAnt(scans[k]) < p.minSubarraySize
    ensures p.singleScan ==> forall g | g in groups :: |g.scans| == 1
    ensures ScanLists(groups) == PassAll(scans, p, env).0
    ensures nNoRecordScan == PassAll(scans, p, env).1
    ensures groups == Groups(scans, events, p, env)
  {
    var formed;
    formed, nNoRecordScan := FormGroups(scans, p, env);
    groups := ClipGroups(formed, events, p, env);
    assert ScanLists(groups) == ScanLists(formed);
    var gs := Groups(scans, events, p, env);
    forall h | 0 <= h < |groups|
      ensures groups[h] == gs[h]
    {
      assert groups[h].scans == ScanLists(groups)[h];
    }
    forall h | h in groups
      ensures WellFormedGroup(h, scans, p, env)
      ensures h.range == env.logicalAnd(Hull(scans, h.scans, env), p.window)
      ensures h.events == env.genEvents(Hull(scans, h.scans, env), events)
    {
      var idx :| 0 <= idx < |groups| && groups[idx] == h;
    }
  }
}
