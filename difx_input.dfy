/**
 * The table-deriving routines of the DiFX input library (difxio): once the
 * tables of a .input file are loaded, the library works out each config's IF
 * list and polarisations, the consensus sample width and channel count, the
 * source table, the frequency-setup ids of the configs, and answers a few
 * lookups. `DifxInput` is the in-memory input; its methods update its fields
 * in place, as the C routines update the structure they are handed.
 */
module DifxInput {
  import opened Common

  /** A row of the frequency table. */
  datatype Freq = Freq(freq: real, bw: real, sideband: char)

  /** A datastream: its sample width, the frequency-table rows it carries and the polarisation letter of each recorded channel. */
  datatype Datastream = Datastream(quantBits: int, freqIds: seq<int>, recChanPols: seq<char>)

  /** One IF of a config: the frequency-table values of its band and the one or two polarisations every IF keeps. */
  datatype IF = IF(freq: real, bw: real, sideband: char, nPol: int, pol: (char, char))

  /**
   * A config. `datastreamIds` (negative entries are unused slots) and `nChan`
   * come from the file; the other fields are derived.
   */
  datatype Config = Config(datastreamIds: seq<int>, nChan: int, quantBits: int, nIF: int,
                           freqId2IF: seq<int>, nPol: int, pol: (char, char), ifs: seq<IF>, freqId: int)

  /** A scan: the source fields it names, its config and job, its end time and its derived source id. */
  datatype Scan = Scan(name: string, calCode: string, ra: real, dec: real, qual: int, configId: int,
                       jobId: int, mjdEnd: real, sourceId: int)

  /** A row of the derived source table. */
  datatype Source = Source(name: string, calCode: string, ra: real, dec: real, qual: int, configId: int)

  /** A row of the job table; the lookups use only its start time. */
  datatype Job = Job(mjdStart: real)

  /* ---------- addtolist ---------- */

  /**
   * addtolist: the first `n` cells of `list` hold a set of integers; `x` is
   * appended unless present. A negative `n` is passed through untouched.
   */
  method AddToList(list: array<int>, x: int, n: int) returns (m: int)
    requires n < 0 || (n <= list.Length && (n < list.Length || x in list[..n]))
    modifies list
    ensures n < 0 ==> m == n && list[..] == old(list[..])
    ensures n >= 0 ==> 0 <= m <= list.Length && list[..m] == AddNew(old(list[..n]), x)
    ensures forall k | 0 <= k < list.Length && !(0 <= n == k) :: list[k] == old(list[k])
  {
    if n < 0 {
      return n;
    }
    if n == 0 {
      list[0] := x;
      return 1;
    }
    var i := 0;
    while i < n
      invariant 0 <= i <= n
      invariant forall k | 0 <= k < i :: list[k] != x
    {
      if list[i] == x {
        return n;
      }
      i := i + 1;
    }
    list[n] := x;
    assert list[..n + 1] == old(list[..n]) + [x];
    return n + 1;
  }

  /** Appending with addtolist keeps the list free of repetitions and adds exactly `x`. */
  lemma AddNewKeepsDistinct(acc: seq<int>, x: int)
    requires NoDup(acc)
    ensures NoDup(AddNew(acc, x))
    ensures forall y :: y in AddNew(acc, x) <==> y in acc || y == x
    ensures acc <= AddNew(acc, x)
  {
  }

  /**
   * The inner loop of makeFreqId2IFmap's polarisation scan: one datastream's
   * recorded channel letters are marked in `haspol` (R, L, X, Y at 0..3); the
   * result is false at the first other letter.
   */
  method NotePols(pols: seq<char>, haspol: array<bool>, ghost before: seq<char>) returns (ok: bool)
    requires haspol.Length == 4 && KnownPols(before)
    requires forall k | 0 <= k < 4 :: haspol[k] <==> PolLetters[k] in before
    modifies haspol
    ensures ok == KnownPols(before + pols)
    ensures ok ==> forall k | 0 <= k < 4 :: haspol[k] <==> PolLetters[k] in before + pols
  {
    for c := 0 to |pols|
      invariant KnownPols(before + pols[..c])
      invariant forall k | 0 <= k < 4 :: haspol[k] <==> PolLetters[k] in before + pols[..c]
    {
      var ch := pols[c];
      assert before + pols[..c + 1] == before + pols[..c] + [ch];
      if ch == 'R' {
        haspol[0] := true;
      } else if ch == 'L' {
        haspol[1] := true;
      } else if ch == 'X' {
        haspol[2] := true;
      } else if ch == 'Y' {
        haspol[3] := true;
      } else {
        assert (before + pols)[|before| + c] == ch;
        return false;
      }
    }
    assert pols[..|pols|] == pols;
    ok := true;
  }

  /* ---------- Gathering over a config's datastreams ---------- */

  /** The datastream slots of a config all name a datastream (or are unused). */
  ghost predicate SlotsIndexed(dsIds: seq<int>, ds: seq<Datastream>)
  {
    forall k | 0 <= k < |dsIds| :: dsIds[k] < |ds|
  }

  /** What `f` yields for each used datastream slot, concatenated in slot order. */
  function Gather<T>(dsIds: seq<int>, ds: seq<Datastream>, f: Datastream -> seq<T>): seq<T>
    requires SlotsIndexed(dsIds, ds)
  {
    if dsIds == [] then []
    else
      var n := |dsIds| - 1;
      var e := dsIds[n];
      Gather(dsIds[..n], ds, f) + (if e < 0 then [] else f(ds[e]))
  }

  /** One more slot extends the gathered sequence. */
  lemma GatherStep<T>(dsIds: seq<int>, a: nat, ds: seq<Datastream>, f: Datastream -> seq<T>)
    requires a < |dsIds| && SlotsIndexed(dsIds, ds)
    ensures SlotsIndexed(dsIds[..a], ds)
    ensures Gather(dsIds[..a + 1], ds, f) ==
      Gather(dsIds[..a], ds, f) + (if dsIds[a] < 0 then [] else f(ds[dsIds[a]]))
  {
    assert dsIds[..a + 1][..a] == dsIds[..a];
  }

  /** A gathered prefix is a prefix of the whole. */
  lemma {:induction false} GatherPrefix<T>(dsIds: seq<int>, a: nat, ds: seq<Datastream>, f: Datastream -> seq<T>)
    requires a <= |dsIds| && SlotsIndexed(dsIds, ds)
    ensures SlotsIndexed(dsIds[..a], ds)
    ensures Gather(dsIds[..a], ds, f) <= Gather(dsIds, ds, f)
  {
    if a < |dsIds| {
      var n := |dsIds| - 1;
      GatherPrefix(dsIds[..n], a, ds, f);
      assert dsIds[..n][..a] == dsIds[..a];
    } else {
      assert dsIds[..a] == dsIds;
    }
  }

  /** Everything gathered comes from a used slot's datastream. */
  lemma {:induction false} GatherFrom<T>(dsIds: seq<int>, ds: seq<Datastream>, f: Datastream -> seq<T>)
    requires SlotsIndexed(dsIds, ds)
    ensures forall x | x in Gather(dsIds, ds, f) :: exists e | e in dsIds :: 0 <= e && x in f(ds[e])
  {
    if dsIds != [] {
      var n := |dsIds| - 1;
      GatherFrom(dsIds[..n], ds, f);
      forall x | x in Gather(dsIds, ds, f)
        ensures exists e | e in dsIds :: 0 <= e && x in f(ds[e])
      {
        if x in Gather(dsIds[..n], ds, f) {
          var e :| e in dsIds[..n] && 0 <= e && x in f(ds[e]);
        } else {
          assert dsIds[n] in dsIds;
        }
      }
    }
  }

  function FreqIdsOf(d: Datastream): seq<int> { d.freqIds }

  function PolsOf(d: Datastream): seq<char> { d.recChanPols }

  function QuantBitsOf(d: Datastream): seq<int> { [d.quantBits] }

  /* ---------- Consensus of a value over datastreams or configs ---------- */

  /**
   * The consensus scan of deriveDifxInputValues, used both for the sample
   * width over a config's datastreams and for the channel count over the
   * configs: 0 means "nothing seen yet", the first value seen is adopted,
   * and a value that differs from the adopted one sets -1.
   */
  function ConsensusStep(acc: int, v: int): int
  {
    if acc == 0 then v else if acc != v then -1 else acc
  }

  function Consensus(vals: seq<int>): int
  {
    if vals == [] then 0 else ConsensusStep(Consensus(vals[..|vals| - 1]), vals[|vals| - 1])
  }

  /** One more value is one more consensus step. */
  lemma ConsensusSnoc(vals: seq<int>, v: int)
    ensures Consensus(vals + [v]) == ConsensusStep(Consensus(vals), v)
  {
    assert (vals + [v])[..|vals|] == vals;
  }

  /** When every value is `v`, the consensus is `v`. */
  lemma {:induction false} ConsensusAgree(vals: seq<int>, v: int)
    requires vals != []
    requires forall k | 0 <= k < |vals| :: vals[k] == v
    ensures Consensus(vals) == v
  {
    var n := |vals| - 1;
    if n > 0 {
      ConsensusAgree(vals[..n], v);
    }
  }

  /** Once -1, the consensus stays -1. */
  lemma {:induction false} ConsensusSticks(vals: seq<int>, k: nat)
    requires k <= |vals| && Consensus(vals[..k]) == -1
    ensures Consensus(vals) == -1
  {
    if k < |vals| {
      var n := |vals| - 1;
      assert vals[..n][..k] == vals[..k];
      ConsensusSticks(vals[..n], k);
    } else {
      assert vals[..k] == vals;
    }
  }

  /** After a positive value `vals[i]`, the consensus is that value or -1. */
  lemma {:induction false} ConsensusTracks(vals: seq<int>, i: nat, j: nat)
    requires i < j <= |vals| && vals[i] > 0
    ensures Consensus(vals[..j]) == vals[i] || Consensus(vals[..j]) == -1
  {
    assert vals[..j][..j - 1] == vals[..j - 1];
    if j > i + 1 {
      ConsensusTracks(vals, i, j - 1);
    }
  }

  /** Two different positive values make the consensus -1. */
  lemma ConsensusDisagree(vals: seq<int>, i: nat, j: nat)
    requires i < j < |vals| && vals[i] > 0 && vals[j] > 0 && vals[i] != vals[j]
    ensures Consensus(vals) == -1
  {
    ConsensusTracks(vals, i, j);
    assert vals[..j + 1][..j] == vals[..j];
    ConsensusSticks(vals, j + 1);
  }

  /** A config's sample width: the consensus over its used datastreams, or 0 when they disagree. */
  function ConfigQuantBits(dsIds: seq<int>, ds: seq<Datastream>): int
    requires SlotsIndexed(dsIds, ds)
  {
    var qb := Consensus(Gather(dsIds, ds, QuantBitsOf));
    if qb < 0 then 0 else qb
  }

  /** The configs' channel counts, in config order. */
  function NChanList(configs: seq<Config>): (r: seq<int>)
    ensures |r| == |configs|
    ensures forall c | 0 <= c < |configs| :: r[c] == configs[c].nChan
  {
    if configs == [] then [] else NChanList(configs[..|configs| - 1]) + [configs[|configs| - 1].nChan]
  }

  /** The channel-count consensus over the configs. */
  function NChanOf(configs: seq<Config>): int
  {
    Consensus(NChanList(configs))
  }

  /** With every config at `v` channels, the consensus is `v`. */
  lemma NChanAgree(configs: seq<Config>, v: int)
    requires configs != [] && forall c | 0 <= c < |configs| :: configs[c].nChan == v
    ensures NChanOf(configs) == v
  {
    ConsensusAgree(NChanList(configs), v);
  }

  /** Two configs with different positive channel counts make the consensus -1. */
  lemma NChanDisagree(configs: seq<Config>, c: nat, d: nat)
    requires c < |configs| && d < |configs|
    requires configs[c].nChan > 0 && configs[d].nChan > 0 && configs[c].nChan != configs[d].nChan
    ensures NChanOf(configs) == -1
  {
    if c < d {
      ConsensusDisagree(NChanList(configs), c, d);
    } else {
      ConsensusDisagree(NChanList(configs), d, c);
    }
  }

  /** Every value `f` yields for a used slot is in the gathered sequence. */
  lemma GatherHas<T>(dsIds: seq<int>, a: nat, ds: seq<Datastream>, f: Datastream -> seq<T>)
    requires a < |dsIds| && SlotsIndexed(dsIds, ds) && dsIds[a] >= 0
    ensures forall x | x in f(ds[dsIds[a]]) :: x in Gather(dsIds, ds, f)
  {
    GatherStep(dsIds, a, ds, f);
    GatherPrefix(dsIds, a + 1, ds, f);
  }

  /** When every used datastream has sample width `v`, and one is used, the config's width is `v`. */
  lemma QuantBitsAgree(dsIds: seq<int>, ds: seq<Datastream>, v: int)
    requires SlotsIndexed(dsIds, ds) && v >= 0
    requires exists a | 0 <= a < |dsIds| :: dsIds[a] >= 0
    requires forall a | 0 <= a < |dsIds| && dsIds[a] >= 0 :: ds[dsIds[a]].quantBits == v
    ensures ConfigQuantBits(dsIds, ds) == v
  {
    var g := Gather(dsIds, ds, QuantBitsOf);
    var a :| 0 <= a < |dsIds| && dsIds[a] >= 0;
    GatherHas(dsIds, a, ds, QuantBitsOf);
    assert ds[dsIds[a]].quantBits in QuantBitsOf(ds[dsIds[a]]);
    GatherFrom(dsIds, ds, QuantBitsOf);
    forall k | 0 <= k < |g| ensures g[k] == v {
      assert g[k] in g;
      var e :| e in dsIds && 0 <= e && g[k] in QuantBitsOf(ds[e]);
      var b :| 0 <= b < |dsIds| && dsIds[b] == e;
    }
    ConsensusAgree(g, v);
  }

  /** Two used datastreams with different positive sample widths give the config width 0. */
  lemma QuantBitsDisagree(dsIds: seq<int>, ds: seq<Datastream>, a: nat, b: nat)
    requires SlotsIndexed(dsIds, ds) && a < |dsIds| && b < |dsIds| && dsIds[a] >= 0 && dsIds[b] >= 0
    requires ds[dsIds[a]].quantBits > 0 && ds[dsIds[b]].quantBits > 0
    requires ds[dsIds[a]].quantBits != ds[dsIds[b]].quantBits
    ensures ConfigQuantBits(dsIds, ds) == 0
  {
    var g := Gather(dsIds, ds, QuantBitsOf);
    GatherHas(dsIds, a, ds, QuantBitsOf);
    GatherHas(dsIds, b, ds, QuantBitsOf);
    assert ds[dsIds[a]].quantBits in QuantBitsOf(ds[dsIds[a]]);
    assert ds[dsIds[b]].quantBits in QuantBitsOf(ds[dsIds[b]]);
    var i :| 0 <= i < |g| && g[i] == ds[dsIds[a]].quantBits;
    var j :| 0 <= j < |g| && g[j] == ds[dsIds[b]].quantBits;
    if i < j {
      ConsensusDisagree(g, i, j);
    } else {
      ConsensusDisagree(g, j, i);
    }
  }

  /* ---------- Reference frequency and output channel count ---------- */

  /** The reference frequency scan: the first frequency, replaced by any lower one, or by the next one while it is not positive. */
  function RefFreqOf(freqs: seq<Freq>): real
  {
    if freqs == [] then 0.0
    else
      var r := RefFreqOf(freqs[..|freqs| - 1]);
      var f := freqs[|freqs| - 1].freq;
      if f < r || r <= 0.0 then f else r
  }

  /** With positive frequencies, the reference frequency is the lowest of them. */
  lemma {:induction false} RefFreqLowest(freqs: seq<Freq>)
    requires freqs != []
    requires forall k | 0 <= k < |freqs| :: freqs[k].freq > 0.0
    ensures exists k | 0 <= k < |freqs| :: RefFreqOf(freqs) == freqs[k].freq
    ensures forall k | 0 <= k < |freqs| :: RefFreqOf(freqs) <= freqs[k].freq
  {
    var n := |freqs| - 1;
    if n > 0 {
      RefFreqLowest(freqs[..n]);
      var k :| 0 <= k < n && RefFreqOf(freqs[..n]) == freqs[..n][k].freq;
      assert freqs[..n][k] == freqs[k];
      forall k | 0 <= k < n ensures RefFreqOf(freqs[..n]) <= freqs[k].freq {
        assert freqs[..n][k] == freqs[k];
      }
      if RefFreqOf(freqs) != freqs[n].freq {
        assert RefFreqOf(freqs) == freqs[k].freq;
      }
    } else {
      assert freqs[..0] == [];
      assert RefFreqOf(freqs) == freqs[0].freq;
    }
  }

  /** C integer division, truncating toward zero. */
  function CDiv(a: int, b: int): int
    requires b != 0
  {
    if (a >= 0) == (b > 0) then (if a >= 0 then a / b else (-a) / (-b))
    else -((if a >= 0 then a else -a) / (if b > 0 then b else -b))
  }

  /** The output channel count kept, or reset to the channels left after `startChan` divided by `specAvg`. */
  function ClampOutChan(nOutChan: int, nChan: int, startChan: int, specAvg: int): (r: int)
    requires specAvg != 0
    ensures r <= CDiv(nChan - startChan, specAvg)
    ensures 0 < nOutChan <= CDiv(nChan - startChan, specAvg) ==> r == nOutChan
    ensures r != nOutChan ==> r == CDiv(nChan - startChan, specAvg)
  {
    var lim := CDiv(nChan - startChan, specAvg);
    if nOutChan <= 0 || nOutChan > lim then lim else nOutChan
  }

  /** Clamping twice is clamping once. */
  lemma ClampIdempotent(nOutChan: int, nChan: int, startChan: int, specAvg: int)
    requires specAvg != 0
    ensures ClampOutChan(ClampOutChan(nOutChan, nChan, startChan, specAvg), nChan, startChan, specAvg)
      == ClampOutChan(nOutChan, nChan, startChan, specAvg)
  {
  }

  /* ---------- The IF list and polarisations of a config (makeFreqId2IFmap) ---------- */

  /** Every datastream names frequency-table rows that exist. */
  ghost predicate FreqsIndexed(ds: seq<Datastream>, freq: seq<Freq>)
  {
    forall e | 0 <= e < |ds| :: forall k | 0 <= k < |ds[e].freqIds| :: 0 <= ds[e].freqIds[k] < |freq|
  }

  /** The largest of the ids, or 0: the running maximum starts from 0. */
  function MaxOr0(s: seq<int>): (m: int)
    ensures m >= 0
    ensures forall k | 0 <= k < |s| :: s[k] <= m
    ensures m == 0 || m in s
  {
    if s == [] then 0
    else
      var m := MaxOr0(s[..|s| - 1]);
      if s[|s| - 1] > m then s[|s| - 1] else m
  }

  /** The frequency-table rows of a config's used datastreams, each once, in first-seen order. */
  function IFList(dsIds: seq<int>, ds: seq<Datastream>, freq: seq<Freq>): (list: seq<int>)
    requires SlotsIndexed(dsIds, ds) && FreqsIndexed(ds, freq)
    ensures NoDup(list)
    ensures forall x :: x in list <==> x in Gather(dsIds, ds, FreqIdsOf)
    ensures forall k | 0 <= k < |list| :: 0 <= list[k] < |freq| && list[k] <= MaxOr0(Gather(dsIds, ds, FreqIdsOf))
  {
    var ids := Gather(dsIds, ds, FreqIdsOf);
    DedupFacts(ids);
    GatheredFreqsIndexed(dsIds, ds, freq);
    assert forall k | 0 <= k < |Dedup(ids)| :: Dedup(ids)[k] in ids;
    Dedup(ids)
  }

  /** The rows gathered over a config's datastreams index the frequency table and are bounded by their maximum. */
  lemma GatheredFreqsIndexed(dsIds: seq<int>, ds: seq<Datastream>, freq: seq<Freq>)
    requires SlotsIndexed(dsIds, ds) && FreqsIndexed(ds, freq)
    ensures forall x | x in Gather(dsIds, ds, FreqIdsOf) ::
      0 <= x < |freq| && x <= MaxOr0(Gather(dsIds, ds, FreqIdsOf))
  {
    var ids := Gather(dsIds, ds, FreqIdsOf);
    GatherFrom(dsIds, ds, FreqIdsOf);
    forall x | x in ids
      ensures 0 <= x < |freq| && x <= MaxOr0(ids)
    {
      var e :| e in dsIds && 0 <= e && x in FreqIdsOf(ds[e]);
      var a :| 0 <= a < |dsIds| && dsIds[a] == e;
      var k :| 0 <= k < |ds[e].freqIds| && ds[e].freqIds[k] == x;
      var j :| 0 <= j < |ids| && ids[j] == x;
    }
  }

  /** The polarisation letters a config may carry, in the order the config stores them. */
  const PolLetters: seq<char> := ['R', 'L', 'X', 'Y']

  predicate KnownPols(pols: seq<char>)
  {
    forall k | 0 <= k < |pols| :: pols[k] in PolLetters
  }

  /** The letters of `letters` present in `pols`, in the order of `letters`. */
  function Select(letters: seq<char>, pols: seq<char>): seq<char>
  {
    if letters == [] then []
    else (if letters[0] in pols then [letters[0]] else []) + Select(letters[1..], pols)
  }

  /** Select keeps its letters distinct and lists exactly those also in `pols`. */
  lemma {:induction false} SelectFacts(letters: seq<char>, pols: seq<char>)
    requires NoDup(letters)
    ensures NoDup(Select(letters, pols))
    ensures forall x :: x in Select(letters, pols) <==> x in pols && x in letters
  {
    if letters != [] {
      var rest := letters[1..];
      assert NoDup(rest) by {
        forall i, j | 0 <= i < j < |rest| ensures rest[i] != rest[j] {
          assert rest[i] == letters[i + 1] && rest[j] == letters[j + 1];
        }
      }
      SelectFacts(rest, pols);
      assert letters[0] !in rest by {
        forall k | 0 <= k < |rest| ensures rest[k] != letters[0] {
          assert rest[k] == letters[k + 1];
        }
      }
      assert letters == [letters[0]] + rest;
    }
  }

  /** The letters present in `pols`, in the order R, L, X, Y. */
  function PolOrder(pols: seq<char>): seq<char>
  {
    Select(PolLetters, pols)
  }

  /** PolOrder written out letter by letter. */
  lemma PolOrderUnfold(pols: seq<char>)
    ensures PolOrder(pols) ==
      (if 'R' in pols then ['R'] else []) + (if 'L' in pols then ['L'] else []) +
      (if 'X' in pols then ['X'] else []) + (if 'Y' in pols then ['Y'] else [])
  {
    var y := if 'Y' in pols then ['Y'] else [];
    var x := if 'X' in pols then ['X'] else [];
    var l := if 'L' in pols then ['L'] else [];
    assert ['Y'][1..] == [];
    assert Select(['Y'], pols) == y;
    assert ['X', 'Y'][1..] == ['Y'];
    assert Select(['X', 'Y'], pols) == x + y;
    assert ['L', 'X', 'Y'][1..] == ['X', 'Y'];
    assert Select(['L', 'X', 'Y'], pols) == l + (x + y);
    assert PolLetters[1..] == ['L', 'X', 'Y'];
  }

  /** The number of set flags. */
  function CountTrue(flags: seq<bool>): nat
  {
    if flags == [] then 0
    else CountTrue(flags[..|flags| - 1]) + (if flags[|flags| - 1] then 1 else 0)
  }

  /** The per-letter presence flags count the letters PolOrder lists. */
  lemma PolCount(pols: seq<char>)
    ensures CountTrue([PolLetters[0] in pols, PolLetters[1] in pols, PolLetters[2] in pols, PolLetters[3] in pols])
      == |PolOrder(pols)|
  {
    var flags := [PolLetters[0] in pols, PolLetters[1] in pols, PolLetters[2] in pols, PolLetters[3] in pols];
    assert flags[..3] == flags[..4][..3] && flags[..2] == flags[..3][..2];
    assert flags[..1] == flags[..2][..1] && flags[..0] == flags[..1][..0] == [];
    assert CountTrue(flags[..1]) == (if flags[0] then 1 else 0);
    assert CountTrue(flags[..2]) == CountTrue(flags[..1]) + (if flags[1] then 1 else 0);
    assert CountTrue(flags[..3]) == CountTrue(flags[..2]) + (if flags[2] then 1 else 0);
    assert flags[..4] == flags;
    PolOrderUnfold(pols);
  }

  /** The letters whose flag is set, in the order R, L, X, Y. */
  function OrderFromFlags(h: seq<bool>): seq<char>
    requires |h| == 4
  {
    (if h[0] then ['R'] else []) + (if h[1] then ['L'] else []) +
    (if h[2] then ['X'] else []) + (if h[3] then ['Y'] else [])
  }

  /** The presence flags give PolOrder and its length. */
  lemma PolFlags(pols: seq<char>, h: seq<bool>)
    requires |h| == 4 && forall k | 0 <= k < 4 :: h[k] == (PolLetters[k] in pols)
    ensures CountTrue(h) == |PolOrder(pols)| && OrderFromFlags(h) == PolOrder(pols)
  {
    assert h == [PolLetters[0] in pols, PolLetters[1] in pols, PolLetters[2] in pols, PolLetters[3] in pols];
    PolCount(pols);
    PolOrderUnfold(pols);
  }

  /** The freqId2IF table before any IF is entered: zeros, closed by the -1 sentinel. */
  function BlankMap(maxId: nat): (m: seq<int>)
    ensures |m| == maxId + 2
  {
    seq(maxId + 2, f requires 0 <= f < maxId + 2 => if f == maxId + 1 then -1 else 0)
  }

  /** The freqId2IF table once IF `i` has been entered at row `list[i]`, for every `i`, in order. */
  function FreqMapAfter(list: seq<int>, maxId: nat): (m: seq<int>)
    requires forall k | 0 <= k < |list| :: 0 <= list[k] <= maxId
    ensures |m| == maxId + 2
  {
    if list == [] then BlankMap(maxId)
    else
      var n := |list| - 1;
      FreqMapAfter(list[..n], maxId)[list[n] := n]
  }

  /** freqId2IF inverts the IF list, holds 0 for unused rows and ends in the -1 sentinel. */
  lemma {:induction false} FreqMapInverts(list: seq<int>, maxId: nat)
    requires NoDup(list)
    requires forall k | 0 <= k < |list| :: 0 <= list[k] <= maxId
    ensures FreqMapAfter(list, maxId)[maxId + 1] == -1
    ensures forall i | 0 <= i < |list| :: FreqMapAfter(list, maxId)[list[i]] == i
    ensures forall f | 0 <= f <= maxId && f !in list :: FreqMapAfter(list, maxId)[f] == 0
  {
    if list != [] {
      var n := |list| - 1;
      FreqMapInverts(list[..n], maxId);
      forall f | 0 <= f <= maxId && f !in list
        ensures FreqMapAfter(list, maxId)[f] == 0
      {
        assert f !in list[..n];
      }
    }
  }

  /** An IF row of a config with `nPol` polarisations `pol`. */
  function IFOf(fr: Freq, nPol: int, pol: (char, char)): IF
  {
    IF(fr.freq, fr.bw, fr.sideband, nPol, pol)
  }

  /** The IF rows for the IF list: each from its frequency-table row, with the config's polarisations. */
  function IFRows(list: seq<int>, freq: seq<Freq>, nPol: int, pol: (char, char)): (ifs: seq<IF>)
    requires forall k | 0 <= k < |list| :: 0 <= list[k] < |freq|
    ensures |ifs| == |list|
    ensures forall i | 0 <= i < |list| :: ifs[i] == IFOf(freq[list[i]], nPol, pol)
  {
    if list == [] then [] else IFRows(list[..|list| - 1], freq, nPol, pol) + [IFOf(freq[list[|list| - 1]], nPol, pol)]
  }

  /**
   * makeFreqId2IFmap on one config, as a value: the status it returns (0 or
   * -1) and the config it leaves. The IF count and the zeroed freqId2IF table
   * with its sentinel are stored before the polarisation checks, so a failing
   * config keeps them; the rest is stored only on success.
   */
  ghost function MapIFs(cfg: Config, ds: seq<Datastream>, freq: seq<Freq>): (int, Config)
    requires SlotsIndexed(cfg.datastreamIds, ds) && FreqsIndexed(ds, freq)
  {
    var ids := Gather(cfg.datastreamIds, ds, FreqIdsOf);
    var list := IFList(cfg.datastreamIds, ds, freq);
    var maxId := MaxOr0(ids);
    var sized := cfg.(nIF := |list|, freqId2IF := BlankMap(maxId));
    var pols := Gather(cfg.datastreamIds, ds, PolsOf);
    var order := PolOrder(pols);
    if !KnownPols(pols) || (|order| != 1 && |order| != 2) then (-1, sized)
    else
      var pol := (order[0], if |order| == 2 then order[1] else ' ');
      (0, sized.(freqId2IF := FreqMapAfter(list, maxId), nPol := |order|, pol := pol,
                 ifs := IFRows(list, freq, |order|, pol)))
  }

  /** The failing case of MapIFs. */
  lemma MapIFsFails(cfg: Config, ds: seq<Datastream>, freq: seq<Freq>)
    requires SlotsIndexed(cfg.datastreamIds, ds) && FreqsIndexed(ds, freq)
    requires var pols := Gather(cfg.datastreamIds, ds, PolsOf);
      !KnownPols(pols) || (|PolOrder(pols)| != 1 && |PolOrder(pols)| != 2)
    ensures MapIFs(cfg, ds, freq) ==
      (-1, cfg.(nIF := |IFList(cfg.datastreamIds, ds, freq)|,
                freqId2IF := BlankMap(MaxOr0(Gather(cfg.datastreamIds, ds, FreqIdsOf)))))
  {
  }

  /** The succeeding case of MapIFs. */
  lemma MapIFsSucceeds(cfg: Config, ds: seq<Datastream>, freq: seq<Freq>)
    requires SlotsIndexed(cfg.datastreamIds, ds) && FreqsIndexed(ds, freq)
    requires var pols := Gather(cfg.datastreamIds, ds, PolsOf);
      KnownPols(pols) && (|PolOrder(pols)| == 1 || |PolOrder(pols)| == 2)
    ensures var list := IFList(cfg.datastreamIds, ds, freq);
      var order := PolOrder(Gather(cfg.datastreamIds, ds, PolsOf));
      var pol := (order[0], if |order| == 2 then order[1] else ' ');
      MapIFs(cfg, ds, freq) ==
        (0, cfg.(nIF := |list|, freqId2IF := FreqMapAfter(list, MaxOr0(Gather(cfg.datastreamIds, ds, FreqIdsOf))),
                 nPol := |order|, pol := pol, ifs := IFRows(list, freq, |order|, pol)))
  {
  }

  /** MapIFs touches only the derived IF fields of the config. */
  lemma MapIFsKeeps(cfg: Config, ds: seq<Datastream>, freq: seq<Freq>)
    requires SlotsIndexed(cfg.datastreamIds, ds) && FreqsIndexed(ds, freq)
    ensures var c := MapIFs(cfg, ds, freq).1;
      c.datastreamIds == cfg.datastreamIds && c.nChan == cfg.nChan && c.quantBits == cfg.quantBits && c.freqId == cfg.freqId
  {
  }

  /**
   * On success every frequency-table row a used datastream carries maps,
   * through freqId2IF, to an IF holding that row's frequency, bandwidth and
   * sideband; IF `i` maps back to `i`; the table ends in the sentinel.
   */
  lemma MapIFsRoundTrip(cfg: Config, ds: seq<Datastream>, freq: seq<Freq>)
    requires SlotsIndexed(cfg.datastreamIds, ds) && FreqsIndexed(ds, freq)
    ensures var (r, c) := MapIFs(cfg, ds, freq);
      var ids := Gather(cfg.datastreamIds, ds, FreqIdsOf);
      && c.nIF == |IFList(cfg.datastreamIds, ds, freq)|
      && c.freqId2IF[|c.freqId2IF| - 1] == -1
      && (r == 0 ==>
            && |c.ifs| == c.nIF
            && (forall x | x in ids ::
                  0 <= x < |c.freqId2IF| - 1 && 0 <= c.freqId2IF[x] < c.nIF &&
                  c.ifs[c.freqId2IF[x]].freq == freq[x].freq &&
                  c.ifs[c.freqId2IF[x]].bw == freq[x].bw &&
                  c.ifs[c.freqId2IF[x]].sideband == freq[x].sideband)
            && (forall i | 0 <= i < c.nIF :: c.freqId2IF[IFList(cfg.datastreamIds, ds, freq)[i]] == i))
  {
    var list := IFList(cfg.datastreamIds, ds, freq);
    var maxId := MaxOr0(Gather(cfg.datastreamIds, ds, FreqIdsOf));
    FreqMapInverts(list, maxId);
    var (r, c) := MapIFs(cfg, ds, freq);
    if r == 0 {
      forall x | x in Gather(cfg.datastreamIds, ds, FreqIdsOf)
        ensures 0 <= x < |c.freqId2IF| - 1 && 0 <= c.freqId2IF[x] < c.nIF
        ensures c.ifs[c.freqId2IF[x]].freq == freq[x].freq
        ensures c.ifs[c.freqId2IF[x]].bw == freq[x].bw && c.ifs[c.freqId2IF[x]].sideband == freq[x].sideband
      {
        var i := IndexOf(list, x);
      }
    }
  }

  /** Two sequences without repetitions and with the same elements are equally long. */
  lemma SameMembersSameLength<T>(a: seq<T>, b: seq<T>)
    requires NoDup(a) && NoDup(b)
    requires forall x :: x in a <==> x in b
    ensures |a| == |b|
  {
    NoDupCard(a);
    NoDupCard(b);
    assert (set x | x in a) == (set x | x in b);
  }

  /**
   * The status of MapIFs is -1 exactly when a recorded channel has a letter
   * other than R, L, X, Y or the number of distinct letters is not 1 or 2.
   */
  lemma MapIFsStatus(cfg: Config, ds: seq<Datastream>, freq: seq<Freq>)
    requires SlotsIndexed(cfg.datastreamIds, ds) && FreqsIndexed(ds, freq)
    ensures var pols := Gather(cfg.datastreamIds, ds, PolsOf);
      MapIFs(cfg, ds, freq).0 == -1 <==> !KnownPols(pols) || (|Dedup(pols)| != 1 && |Dedup(pols)| != 2)
  {
    var pols := Gather(cfg.datastreamIds, ds, PolsOf);
    if KnownPols(pols) {
      PolOrderCount(pols);
    }
  }

  /**
   * On success the config stores exactly the polarisation letters present,
   * in the order R, L, X, Y, padding a single one with a blank, and every IF
   * repeats them.
   */
  lemma MapIFsPolarisations(cfg: Config, ds: seq<Datastream>, freq: seq<Freq>)
    requires SlotsIndexed(cfg.datastreamIds, ds) && FreqsIndexed(ds, freq)
    ensures var r := MapIFs(cfg, ds, freq).0;
      var c := MapIFs(cfg, ds, freq).1;
      var pols := Gather(cfg.datastreamIds, ds, PolsOf);
      r == 0 ==>
        && c.nPol == |Dedup(pols)|
        && (forall ch :: ch in pols <==> ch == c.pol.0 || (c.nPol == 2 && ch == c.pol.1))
        && (c.nPol == 1 ==> c.pol.1 == ' ')
        && (c.nPol == 2 ==>
              c.pol.0 in PolLetters && c.pol.1 in PolLetters
              && IndexOf(PolLetters, c.pol.0) < IndexOf(PolLetters, c.pol.1))
        && (forall i | 0 <= i < |c.ifs| :: c.ifs[i].nPol == c.nPol && c.ifs[i].pol == c.pol)
  {
    var pols := Gather(cfg.datastreamIds, ds, PolsOf);
    var order := PolOrder(pols);
    if KnownPols(pols) && (|order| == 1 || |order| == 2) {
      var pol := (order[0], if |order| == 2 then order[1] else ' ');
      PolPairFacts(pols);
      MapIFsSucceeds(cfg, ds, freq);
      var c := MapIFs(cfg, ds, freq).1;
      assert c.nPol == |order| && c.pol == pol;
      assert c.ifs == IFRows(IFList(cfg.datastreamIds, ds, freq), freq, |order|, pol);
    } else {
      MapIFsFails(cfg, ds, freq);
    }
  }

  /** The polarisation pair a config stores, read off the ordered letters. */
  lemma PolPairFacts(pols: seq<char>)
    requires KnownPols(pols) && (|PolOrder(pols)| == 1 || |PolOrder(pols)| == 2)
    ensures var order := PolOrder(pols);
      var pol := (order[0], if |order| == 2 then order[1] else ' ');
      && |order| == |Dedup(pols)|
      && (forall ch :: ch in pols <==> ch == pol.0 || (|order| == 2 && ch == pol.1))
      && (|order| == 2 ==>
            pol.0 in PolLetters && pol.1 in PolLetters
            && IndexOf(PolLetters, pol.0) < IndexOf(PolLetters, pol.1))
  {
    var order := PolOrder(pols);
    PolOrderMembers(pols);
    PolOrderSorted(pols);
    PolOrderCount(pols);
    forall ch ensures ch in pols <==> ch in order {
      if ch in pols {
        var k :| 0 <= k < |pols| && pols[k] == ch;
        assert pols[k] in PolLetters;
      }
    }
  }

  /** PolOrder lists each letter of R, L, X, Y present in `pols`, once. */
  lemma PolOrderMembers(pols: seq<char>)
    ensures NoDup(PolOrder(pols))
    ensures forall x :: x in PolOrder(pols) <==> x in pols && x in PolLetters
  {
    SelectFacts(PolLetters, pols);
  }

  /** A second polarisation comes after the first in the order R, L, X, Y. */
  lemma PolOrderSorted(pols: seq<char>)
    ensures |PolOrder(pols)| == 2 ==>
      PolOrder(pols)[0] in PolLetters && PolOrder(pols)[1] in PolLetters
      && IndexOf(PolLetters, PolOrder(pols)[0]) < IndexOf(PolLetters, PolOrder(pols)[1])
  {
    PolOrderUnfold(pols);
  }

  /** With only known letters, PolOrder has as many entries as `pols` has distinct letters. */
  lemma PolOrderCount(pols: seq<char>)
    requires KnownPols(pols)
    ensures |PolOrder(pols)| == |Dedup(pols)|
  {
    var order := PolOrder(pols);
    DedupFacts(pols);
    PolOrderMembers(pols);
    forall x ensures x in order <==> x in Dedup(pols) {
      if x in pols {
        var k :| 0 <= k < |pols| && pols[k] == x;
      }
    }
    SameMembersSameLength(order, Dedup(pols));
  }

  /* ---------- deriveDifxInputValues on one config ---------- */

  /**
   * What deriveDifxInputValues leaves in one config: the sample width set
   * from its datastreams, then makeFreqId2IFmap's IF fields (its status is
   * ignored there).
   */
  ghost function DeriveConfig(cfg: Config, ds: seq<Datastream>, freq: seq<Freq>): Config
    requires SlotsIndexed(cfg.datastreamIds, ds) && FreqsIndexed(ds, freq)
  {
    MapIFs(cfg.(quantBits := ConfigQuantBits(cfg.datastreamIds, ds)), ds, freq).1
  }

  /** A derived config keeps its datastreams, channel count and freqId, and carries the consensus sample width. */
  lemma DeriveConfigKeeps(cfg: Config, ds: seq<Datastream>, freq: seq<Freq>)
    requires SlotsIndexed(cfg.datastreamIds, ds) && FreqsIndexed(ds, freq)
    ensures var c := DeriveConfig(cfg, ds, freq);
      && c.datastreamIds == cfg.datastreamIds && c.nChan == cfg.nChan && c.freqId == cfg.freqId
      && c.quantBits == ConfigQuantBits(cfg.datastreamIds, ds) && c.quantBits >= 0
  {
    MapIFsKeeps(cfg.(quantBits := ConfigQuantBits(cfg.datastreamIds, ds)), ds, freq);
  }

  /** The configs after deriveDifxInputValues has set the sample width of the first `c` of `c0`. */
  ghost predicate QuantUpTo(c: nat, c0: seq<Config>, config: seq<Config>, ds: seq<Datastream>)
  {
    && c <= |c0| && |config| == |c0|
    && (forall k | 0 <= k < |c0| :: SlotsIndexed(c0[k].datastreamIds, ds))
    && (forall k | 0 <= k < c :: config[k] == c0[k].(quantBits := ConfigQuantBits(c0[k].datastreamIds, ds)))
    && (forall k | c <= k < |config| :: config[k] == c0[k])
  }

  /** Config `c` takes its consensus sample width; the channel consensus takes one more step. */
  lemma QuantStep(c: nat, c0: seq<Config>, config: seq<Config>, ds: seq<Datastream>, qb: int)
    requires c < |c0| && QuantUpTo(c, c0, config, ds)
    requires qb == ConfigQuantBits(c0[c].datastreamIds, ds)
    ensures config[c] == c0[c] && SlotsIndexed(config[c].datastreamIds, ds)
    ensures QuantUpTo(c + 1, c0, config[c := config[c].(quantBits := qb)], ds)
    ensures NChanOf(c0[..c + 1]) == ConsensusStep(NChanOf(c0[..c]), c0[c].nChan)
  {
    assert NChanList(c0[..c + 1]) == NChanList(c0[..c]) + [c0[c].nChan];
    ConsensusSnoc(NChanList(c0[..c]), c0[c].nChan);
  }

  /** The two per-config loops of deriveDifxInputValues together leave DeriveConfig in every config. */
  lemma DeriveAll(c0: seq<Config>, c1: seq<Config>, c2: seq<Config>, ds: seq<Datastream>, freq: seq<Freq>)
    requires FreqsIndexed(ds, freq) && QuantUpTo(|c0|, c0, c1, ds)
    requires |c2| == |c1| && forall k | 0 <= k < |c1| :: SlotsIndexed(c1[k].datastreamIds, ds)
    requires forall k | 0 <= k < |c2| :: c2[k] == MapIFs(c1[k], ds, freq).1
    ensures |c2| == |c0| && forall k | 0 <= k < |c0| :: c2[k] == DeriveConfig(c0[k], ds, freq)
  {
  }

  /* ---------- The source table (deriveSourceTable) ---------- */

  /** The source a scan names: scans with equal sources share a source-table row. */
  function SourceOf(s: Scan): Source
  {
    Source(s.name, s.calCode, s.ra, s.dec, s.qual, s.configId)
  }

  /** The sources the scans name, in scan order. */
  function SourceKeys(scans: seq<Scan>): (keys: seq<Source>)
    ensures |keys| == |scans|
    ensures forall k | 0 <= k < |scans| :: keys[k] == SourceOf(scans[k])
  {
    if scans == [] then [] else SourceKeys(scans[..|scans| - 1]) + [SourceOf(scans[|scans| - 1])]
  }

  /**
   * The source table lists every source a scan names, once, in order of
   * first appearance, and is no longer than the scan list; each scan's row
   * holds its source, and two scans share a row exactly when they name the
   * same source.
   */
  lemma SourceTableFacts(scans: seq<Scan>)
    ensures var table := Dedup(SourceKeys(scans));
      && NoDup(table) && |table| <= |scans|
      && (forall x :: x in table <==> exists k | 0 <= k < |scans| :: x == SourceOf(scans[k]))
      && (forall k | 0 <= k < |scans| :: SourceOf(scans[k]) in table
            && table[IndexOf(table, SourceOf(scans[k]))] == SourceOf(scans[k]))
      && (forall k, l | 0 <= k < |scans| && 0 <= l < |scans| ::
            IndexOf(table, SourceOf(scans[k])) == IndexOf(table, SourceOf(scans[l])) <==> SourceOf(scans[k]) == SourceOf(scans[l]))
  {
    var keys := SourceKeys(scans);
    DedupFacts(keys);
    forall x ensures x in keys <==> exists k | 0 <= k < |scans| :: x == SourceOf(scans[k]) {
      if x in keys {
        var k :| 0 <= k < |keys| && keys[k] == x;
      }
    }
    forall k | 0 <= k < |scans| ensures SourceOf(scans[k]) in Dedup(keys) {
      assert keys[k] in keys;
    }
  }

  /**
   * The source table and scan list after the first `s` scans of `scans0`:
   * the distinct sources of those scans, each of them carrying its row; the
   * later scans untouched.
   */
  ghost predicate TableUpTo(s: nat, scans0: seq<Scan>, scan: seq<Scan>, source: seq<Source>)
  {
    var keys := SourceKeys(scans0);
    && s <= |scans0| && |scan| == |scans0|
    && source == Dedup(keys[..s])
    && (forall k | 0 <= k < s :: keys[k] in source && scan[k] == scans0[k].(sourceId := IndexOf(source, keys[k])))
    && (forall k | s <= k < |scan| :: scan[k] == scans0[k])
  }

  /** Scan `s` takes the row `i` the search found, appended when the search ran off the end. */
  lemma EnterStep(s: nat, scans0: seq<Scan>, scan: seq<Scan>, source: seq<Source>, i: int)
    requires s < |scans0| && TableUpTo(s, scans0, scan, source)
    requires 0 <= i <= |source| && (i < |source| ==> source[i] == SourceOf(scan[s]))
    requires forall j | 0 <= j < i :: source[j] != SourceOf(scan[s])
    ensures var next := if i < |source| then source else source + [SourceOf(scan[s])];
      TableUpTo(s + 1, scans0, scan[s := scan[s].(sourceId := i)], next)
  {
    var keys := SourceKeys(scans0);
    var key := SourceOf(scan[s]);
    var next := if i < |source| then source else source + [key];
    var scan' := scan[s := scan[s].(sourceId := i)];
    assert keys[..s + 1][..s] == keys[..s];
    IndexOfUnique(next, key, i);
    IdsStay(source, next, keys[..s]);
    forall k | 0 <= k < s + 1
      ensures keys[k] in next && scan'[k] == scans0[k].(sourceId := IndexOf(next, keys[k]))
    {
      if k < s {
        assert keys[..s][k] == keys[k];
      }
    }
  }

  /* ---------- Comparing the IF setups of two configs (sameFQ) ---------- */

  /** Entry `p` of an IF's two-letter polarisation array. */
  function PolAt(pol: (char, char), p: int): char
    requires 0 <= p < 2
  {
    if p == 0 then pol.0 else pol.1
  }

  /** The IF rows sameFQ reads exist, and none has more than the two polarisations an IF can hold. */
  ghost predicate IFsShaped(c: Config)
  {
    c.nIF <= |c.ifs| && forall i | 0 <= i < c.nIF :: c.ifs[i].nPol <= 2
  }

  /** Two IFs agree in frequency, bandwidth, sideband and their polarisations. */
  predicate SameIF(a: IF, b: IF)
    requires a.nPol <= 2
  {
    && a.freq == b.freq && a.bw == b.bw && a.sideband == b.sideband && a.nPol == b.nPol
    && forall p | 0 <= p < a.nPol :: PolAt(a.pol, p) == PolAt(b.pol, p)
  }

  /** Two configs have the same IF setup: the same IF count and matching IFs. */
  ghost predicate SameFQSpec(c1: Config, c2: Config)
    requires IFsShaped(c1) && IFsShaped(c2)
  {
    c1.nIF == c2.nIF && forall i | 0 <= i < c1.nIF :: SameIF(c1.ifs[i], c2.ifs[i])
  }

  /**
   * sameFQ: compares the IF count, then IF by IF the frequency, bandwidth,
   * sideband, polarisation count and each used polarisation entry, and
   * answers false at the first difference.
   */
  method SameFQ(c1: Config, c2: Config) returns (same: bool)
    requires IFsShaped(c1) && IFsShaped(c2)
    ensures same == SameFQSpec(c1, c2)
  {
    if c1.nIF != c2.nIF {
      return false;
    }
    var i := 0;
    while i < c1.nIF
      invariant 0 <= i <= (if c1.nIF < 0 then 0 else c1.nIF)
      invariant forall k | 0 <= k < i :: SameIF(c1.ifs[k], c2.ifs[k])
    {
      var a, b := c1.ifs[i], c2.ifs[i];
      if a.freq != b.freq || a.bw != b.bw || a.sideband != b.sideband || a.nPol != b.nPol {
        return false;
      }
      var p := 0;
      while p < a.nPol
        invariant 0 <= p <= (if a.nPol < 0 then 0 else a.nPol)
        invariant forall q | 0 <= q < p :: PolAt(a.pol, q) == PolAt(b.pol, q)
      {
        if PolAt(a.pol, p) != PolAt(b.pol, p) {
          return false;
        }
        p := p + 1;
      }
      i := i + 1;
    }
    return true;
  }

  /** Having the same IF setup is reflexive, symmetric and transitive. */
  lemma SameFQEquivalence(c1: Config, c2: Config, c3: Config)
    requires IFsShaped(c1) && IFsShaped(c2) && IFsShaped(c3)
    ensures SameFQSpec(c1, c1)
    ensures SameFQSpec(c1, c2) ==> SameFQSpec(c2, c1)
    ensures SameFQSpec(c1, c2) && SameFQSpec(c2, c3) ==> SameFQSpec(c1, c3)
  {
  }

  /* ---------- Numbering the distinct IF setups (calcFreqIds) ---------- */

  /** Every config's IF rows are shaped for sameFQ. */
  ghost predicate AllShaped(configs: seq<Config>)
  {
    forall c | 0 <= c < |configs| :: IFsShaped(configs[c])
  }

  /** The first config from `d` on, before `c`, with config `c`'s IF setup; `c` if there is none. */
  ghost function FirstSameFQ(configs: seq<Config>, c: nat, d: nat): (r: nat)
    requires c < |configs| && d <= c && AllShaped(configs)
    ensures d <= r <= c
    ensures r < c ==> SameFQSpec(configs[c], configs[r])
    ensures forall e | d <= e < r :: !SameFQSpec(configs[c], configs[e])
    decreases c - d
  {
    if d == c then c
    else if SameFQSpec(configs[c], configs[d]) then d
    else FirstSameFQ(configs, c, d + 1)
  }

  /**
   * The freqId calcFreqIds gives each config, and the count of numbers
   * handed out: a config takes the freqId of the first earlier config with
   * the same IF setup, or else the next unused number.
   */
  ghost function FreqIdTable(configs: seq<Config>): (t: (seq<int>, int))
    requires AllShaped(configs)
    ensures |t.0| == |configs| && t.1 >= 0
    ensures forall c | 0 <= c < |configs| :: 0 <= t.0[c] < t.1
  {
    if configs == [] then ([], 0)
    else
      var n := |configs| - 1;
      var (ids, count) := FreqIdTable(configs[..n]);
      var d := FirstSameFQ(configs, n, 0);
      if d < n then (ids + [ids[d]], count) else (ids + [count], count + 1)
  }

  /** Every number below the count is some config's freqId. */
  lemma {:induction false} FreqIdOnto(configs: seq<Config>)
    requires AllShaped(configs)
    ensures forall v | 0 <= v < FreqIdTable(configs).1 :: v in FreqIdTable(configs).0
  {
    if configs != [] {
      var n := |configs| - 1;
      var pre := configs[..n];
      assert AllShaped(pre);
      FreqIdOnto(pre);
      var t0 := FreqIdTable(pre);
      var t := FreqIdTable(configs);
      assert t.0[..n] == t0.0;
      forall v | 0 <= v < t.1 ensures v in t.0 {
        if v < t0.1 {
          assert v in t0.0;
          assert v in t.0[..n];
        } else {
          assert t.0[n] == v;
        }
      }
    }
  }

  /** Two configs share a freqId exactly when they have the same IF setup. */
  lemma {:induction false} FreqIdClasses(configs: seq<Config>)
    requires AllShaped(configs)
    ensures var ids := FreqIdTable(configs).0;
      forall c, d | 0 <= c < |configs| && 0 <= d < |configs| ::
        ids[c] == ids[d] <==> SameFQSpec(configs[c], configs[d])
  {
    if configs != [] {
      var n := |configs| - 1;
      var pre := configs[..n];
      assert AllShaped(pre);
      FreqIdClasses(pre);
      var (ids0, count0) := FreqIdTable(pre);
      var (ids, count) := FreqIdTable(configs);
      var f := FirstSameFQ(configs, n, 0);
      assert forall k | 0 <= k < n :: pre[k] == configs[k] && ids[k] == ids0[k];
      forall c, d | 0 <= c < |configs| && 0 <= d < |configs|
        ensures ids[c] == ids[d] <==> SameFQSpec(configs[c], configs[d])
      {
        SameFQEquivalence(configs[c], configs[d], configs[c]);
        if c == n && d < n {
          SameFQPartner(configs, ids, count, n, f, d);
        } else if d == n && c < n {
          SameFQPartner(configs, ids, count, n, f, c);
          SameFQEquivalence(configs[d], configs[c], configs[d]);
        }
      }
    }
  }

  /** The step of FreqIdClasses for the newest config `n` against an earlier config `d`. */
  lemma SameFQPartner(configs: seq<Config>, ids: seq<int>, count: int, n: nat, f: nat, d: nat)
    requires AllShaped(configs) && n == |configs| - 1 && d < n
    requires (ids, count) == FreqIdTable(configs) && f == FirstSameFQ(configs, n, 0)
    requires forall c, e | 0 <= c < n && 0 <= e < n ::
      ids[c] == ids[e] <==> SameFQSpec(configs[c], configs[e])
    ensures ids[n] == ids[d] <==> SameFQSpec(configs[n], configs[d])
  {
    var (ids0, count0) := FreqIdTable(configs[..n]);
    assert forall k | 0 <= k < n :: ids[k] == ids0[k];
    if f < n {
      assert ids[n] == ids[f];
      SameFQEquivalence(configs[n], configs[f], configs[d]);
      SameFQEquivalence(configs[f], configs[n], configs[d]);
    } else {
      assert ids[n] == count0 && ids0[d] < count0;
    }
  }

  /** A scan belongs to job `jobId` and ends after time `mjd`. */
  predicate ScanCovers(s: Scan, mjd: real, jobId: int)
  {
    mjd < s.mjdEnd && s.jobId == jobId
  }

  /** The search loop of deriveSourceTable: the first row holding `key`, or the row count. */
  method FindSource(table: seq<Source>, key: Source) returns (i: int)
    ensures 0 <= i <= |table|
    ensures i < |table| ==> table[i] == key
    ensures forall j | 0 <= j < i :: table[j] != key
  {
    i := 0;
    while i < |table| && table[i] != key
      invariant 0 <= i <= |table|
      invariant forall j | 0 <= j < i :: table[j] != key
    {
      i := i + 1;
    }
  }

  /** Rows already in the table keep their positions when it grows. */
  lemma IdsStay(before: seq<Source>, after: seq<Source>, keys: seq<Source>)
    requires before <= after
    requires forall k | 0 <= k < |keys| :: keys[k] in before
    ensures forall k | 0 <= k < |keys| :: keys[k] in after && IndexOf(after, keys[k]) == IndexOf(before, keys[k])
  {
    assert before + after[|before|..] == after;
    forall k | 0 <= k < |keys| ensures keys[k] in after && IndexOf(after, keys[k]) == IndexOf(before, keys[k]) {
      IndexOfExtend(before, after[|before|..], keys[k]);
    }
  }

  /**
   * The inner loop of calcFreqIds: the freqId of the first earlier config
   * with config `c`'s IF setup, or -1. `pre` is the configs up to `c` as
   * they were before numbering, `ids` the freqIds already given.
   */
  method MatchingFreqId(cs: seq<Config>, c: nat, ghost pre: seq<Config>, ghost ids: seq<int>) returns (id: int)
    requires |pre| == c + 1 && c < |cs| && AllShaped(pre) && |ids| == c
    requires forall k | 0 <= k <= c :: cs[k].nIF == pre[k].nIF && cs[k].ifs == pre[k].ifs
    requires forall k | 0 <= k < c :: cs[k].freqId == ids[k] && ids[k] >= 0
    ensures FirstSameFQ(pre, c, 0) < c ==> id == ids[FirstSameFQ(pre, c, 0)]
    ensures FirstSameFQ(pre, c, 0) == c ==> id == -1
  {
    id := -1;
    var d := 0;
    while d < c
      invariant 0 <= d <= c
      invariant id == -1 ==> FirstSameFQ(pre, c, 0) == FirstSameFQ(pre, c, d)
      invariant id != -1 ==> d == c && FirstSameFQ(pre, c, 0) < c && id == ids[FirstSameFQ(pre, c, 0)]
    {
      assert IFsShaped(pre[c]) && IFsShaped(pre[d]);
      var same := SameFQ(cs[c], cs[d]);
      assert same == SameFQSpec(pre[c], pre[d]);
      if same {
        assert FirstSameFQ(pre, c, d) == d;
        id := cs[d].freqId;
        d := c;
      } else {
        d := d + 1;
      }
    }
  }

  /** The configs after calcFreqIds has numbered the first `c` of `c0`; the rest are untouched. */
  ghost predicate IdsUpTo(c: nat, c0: seq<Config>, config: seq<Config>)
  {
    && c <= |c0| && |config| == |c0| && AllShaped(c0)
    && (forall k | 0 <= k < c :: config[k] == c0[k].(freqId := FreqIdTable(c0[..c]).0[k]))
    && (forall k | c <= k < |config| :: config[k] == c0[k])
  }

  /** What the inner loop of calcFreqIds needs of the partly numbered configs. */
  lemma IdsUpToMatch(c: nat, c0: seq<Config>, config: seq<Config>)
    requires c < |c0| && IdsUpTo(c, c0, config)
    ensures AllShaped(c0[..c + 1]) && |FreqIdTable(c0[..c]).0| == c
    ensures forall k | 0 <= k <= c :: config[k].nIF == c0[..c + 1][k].nIF && config[k].ifs == c0[..c + 1][k].ifs
    ensures forall k | 0 <= k < c :: config[k].freqId == FreqIdTable(c0[..c]).0[k] && FreqIdTable(c0[..c]).0[k] >= 0
  {
  }

  /** Config `c` takes the freqId found, or the next number when none was. */
  lemma NumberStep(c: nat, c0: seq<Config>, config: seq<Config>, id: int, nFQ0: int)
    requires 1 <= c < |c0| && IdsUpTo(c, c0, config) && nFQ0 == FreqIdTable(c0[..c]).1
    requires AllShaped(c0[..c + 1])
    requires FirstSameFQ(c0[..c + 1], c, 0) < c ==> id == FreqIdTable(c0[..c]).0[FirstSameFQ(c0[..c + 1], c, 0)]
    requires FirstSameFQ(c0[..c + 1], c, 0) == c ==> id == -1
    ensures var newId := if id == -1 then nFQ0 else id;
      && IdsUpTo(c + 1, c0, config[c := config[c].(freqId := newId)])
      && FreqIdTable(c0[..c + 1]).1 == (if id == -1 then nFQ0 + 1 else nFQ0)
  {
    var pre := c0[..c + 1];
    assert pre[..c] == c0[..c];
    var ids := FreqIdTable(c0[..c]).0;
    var newId := if id == -1 then nFQ0 else id;
    assert FreqIdTable(pre) == (ids + [newId], if id == -1 then nFQ0 + 1 else nFQ0);
    var config' := config[c := config[c].(freqId := newId)];
    forall k | 0 <= k < c + 1 ensures config'[k] == c0[k].(freqId := FreqIdTable(pre).0[k]) {
      if k < c {
        assert config'[k] == config[k];
      }
    }
    forall k | c + 1 <= k < |config'| ensures config'[k] == c0[k] {
      assert config'[k] == config[k];
    }
  }

  /* ---------- The input structure ---------- */

  class DifxInput {
    const freq: seq<Freq>
    const datastream: seq<Datastream>
    const antennaNames: seq<string>
    const job: seq<Job>
    const startChan: int
    const specAvg: int
    var config: seq<Config>
    var scan: seq<Scan>
    var source: seq<Source>
    var refFreq: real
    var nOutChan: int
    var nFFT: int
    var nInChan: int

    constructor(freq: seq<Freq>, datastream: seq<Datastream>, antennaNames: seq<string>, job: seq<Job>,
                startChan: int, specAvg: int, config: seq<Config>, scan: seq<Scan>, nOutChan: int)
      ensures this.freq == freq && this.datastream == datastream && this.antennaNames == antennaNames
      ensures this.job == job && this.startChan == startChan && this.specAvg == specAvg
      ensures this.config == config && this.scan == scan && this.nOutChan == nOutChan
      ensures source == [] && refFreq == 0.0 && nFFT == 0 && nInChan == 0
    {
      this.freq := freq;
      this.datastream := datastream;
      this.antennaNames := antennaNames;
      this.job := job;
      this.startChan := startChan;
      this.specAvg := specAvg;
      this.config := config;
      this.scan := scan;
      this.nOutChan := nOutChan;
      source := [];
      refFreq := 0.0;
      nFFT := 0;
      nInChan := 0;
    }

    /** The tables index each other: config slots name datastreams, datastreams name frequency rows. */
    ghost predicate Indexed()
      reads this
    {
      (forall c | 0 <= c < |config| :: SlotsIndexed(config[c].datastreamIds, datastream)) &&
      FreqsIndexed(datastream, freq)
    }

    /**
     * makeFreqId2IFmap: collects the distinct frequency rows of config
     * `configId`'s datastreams into its IF list, builds the freqId2IF table
     * and sets the polarisations. A negative config id is a no-op returning 0.
     */
    method MakeFreqId2IFmap(configId: int) returns (r: int)
      requires configId < |config| && Indexed()
      modifies this`config
      ensures |config| == |old(config)|
      ensures configId < 0 ==> r == 0 && config == old(config)
      ensures configId >= 0 ==>
        (r, config[configId]) == MapIFs(old(config)[configId], datastream, freq) &&
        config == old(config)[configId := config[configId]]
    {
      if configId < 0 {
        return 0;
      }
      var dc := config[configId];
      var dsIds := dc.datastreamIds;
      assert SlotsIndexed(dsIds, datastream);
      var freqIds, nIF, maxFreqId := CollectFreqIds(dsIds);
      var freqId2IF := new int[maxFreqId + 2](_ => 0);
      freqId2IF[maxFreqId + 1] := -1;
      assert freqId2IF[..] == BlankMap(maxFreqId);
      var sized := dc.(nIF := nIF, freqId2IF := freqId2IF[..]);
      assert |IFList(dsIds, datastream, freq)| == nIF;

      var haspol, known := CollectPols(dsIds);
      if !known {
        MapIFsFails(dc, datastream, freq);
        config := config[configId := sized];
        return -1;
      }
      ghost var pols := Gather(dsIds, datastream, PolsOf);
      var nPol, order := SetPols(haspol);
      PolFlags(pols, haspol[..]);
      if nPol != 1 && nPol != 2 {
        MapIFsFails(dc, datastream, freq);
        config := config[configId := sized];
        return -1;
      }
      var pol := (order[0], if nPol == 2 then order[1] else ' ');
      var ifs := FillIFs(freqIds, nIF, freqId2IF, maxFreqId, nPol, pol, dsIds);
      MapIFsSucceeds(dc, datastream, freq);
      config := config[configId := sized.(freqId2IF := freqId2IF[..], nPol := nPol, pol := pol, ifs := ifs)];
      return 0;
    }

    /** The polarisation count and the letters in the order R, L, X, Y, from the presence flags. */
    method SetPols(haspol: array<bool>) returns (nPol: int, order: seq<char>)
      requires haspol.Length == 4
      ensures nPol == CountTrue(haspol[..]) && order == OrderFromFlags(haspol[..])
    {
      nPol := 0;
      for p := 0 to 4
        invariant nPol == CountTrue(haspol[..p])
      {
        assert haspol[..p + 1][..p] == haspol[..p];
        if haspol[p] {
          nPol := nPol + 1;
        }
      }
      assert haspol[..4] == haspol[..];
      order := [];
      if haspol[0] {
        order := order + ['R'];
      }
      if haspol[1] {
        order := order + ['L'];
      }
      if haspol[2] {
        order := order + ['X'];
      }
      if haspol[3] {
        order := order + ['Y'];
      }
    }

    /** The first loop of makeFreqId2IFmap: the distinct frequency rows, by addtolist, and their maximum. */
    method CollectFreqIds(dsIds: seq<int>) returns (freqIds: array<int>, nIF: int, maxFreqId: int)
      requires SlotsIndexed(dsIds, datastream) && FreqsIndexed(datastream, freq)
      ensures fresh(freqIds) && freqIds.Length == |freq|
      ensures 0 <= nIF <= freqIds.Length && freqIds[..nIF] == IFList(dsIds, datastream, freq)
      ensures maxFreqId == MaxOr0(Gather(dsIds, datastream, FreqIdsOf))
    {
      nIF := 0;
      freqIds := new int[|freq|];
      maxFreqId := 0;
      ghost var seen: seq<int> := [];
      for a := 0 to |dsIds|
        invariant seen == Gather(dsIds[..a], datastream, FreqIdsOf)
        invariant forall k | 0 <= k < |seen| :: 0 <= seen[k] < |freq|
        invariant 0 <= nIF <= freqIds.Length && freqIds[..nIF] == Dedup(seen)
        invariant maxFreqId == MaxOr0(seen)
      {
        GatherStep(dsIds, a, datastream, FreqIdsOf);
        var e := dsIds[a];
        if e >= 0 {
          nIF, maxFreqId := AddFreqIds(freqIds, nIF, maxFreqId, datastream[e].freqIds, seen);
          seen := seen + datastream[e].freqIds;
        }
      }
      assert dsIds[..|dsIds|] == dsIds;
    }

    /** The inner loop of the first loop of makeFreqId2IFmap: one datastream's frequency rows. */
    method AddFreqIds(freqIds: array<int>, nIF0: int, max0: int, xs: seq<int>, ghost seen: seq<int>)
      returns (nIF: int, maxFreqId: int)
      requires forall k | 0 <= k < |seen| :: 0 <= seen[k] < freqIds.Length
      requires forall k | 0 <= k < |xs| :: 0 <= xs[k] < freqIds.Length
      requires 0 <= nIF0 <= freqIds.Length && freqIds[..nIF0] == Dedup(seen)
      requires max0 == MaxOr0(seen)
      modifies freqIds
      ensures 0 <= nIF <= freqIds.Length && freqIds[..nIF] == Dedup(seen + xs)
      ensures maxFreqId == MaxOr0(seen + xs)
    {
      nIF, maxFreqId := nIF0, max0;
      assert seen + xs[..0] == seen;
      for f := 0 to |xs|
        invariant 0 <= nIF <= freqIds.Length && freqIds[..nIF] == Dedup(seen + xs[..f])
        invariant maxFreqId == MaxOr0(seen + xs[..f])
      {
        var x := xs[f];
        ghost var sofar := seen + xs[..f];
        assert sofar + [x] == seen + xs[..f + 1];
        AddStep(sofar, x, freqIds.Length);
        nIF := AddToList(freqIds, x, nIF);
        if x > maxFreqId {
          maxFreqId := x;
        }
        assert (sofar + [x])[..|sofar|] == sofar;
      }
      assert xs[..|xs|] == xs;
    }

    /**
     * The polarisation loop of makeFreqId2IFmap: a flag per letter R, L, X, Y;
     * `known` is false when a channel has any other letter, where the C code
     * returns -1 on the spot.
     */
    method CollectPols(dsIds: seq<int>) returns (haspol: array<bool>, known: bool)
      requires SlotsIndexed(dsIds, datastream)
      ensures fresh(haspol) && haspol.Length == 4
      ensures known == KnownPols(Gather(dsIds, datastream, PolsOf))
      ensures known ==> forall k | 0 <= k < 4 :: haspol[k] == (PolLetters[k] in Gather(dsIds, datastream, PolsOf))
    {
      haspol := new bool[4](_ => false);
      ghost var pseen: seq<char> := [];
      for a := 0 to |dsIds|
        invariant pseen == Gather(dsIds[..a], datastream, PolsOf)
        invariant KnownPols(pseen)
        invariant forall k | 0 <= k < 4 :: haspol[k] <==> PolLetters[k] in pseen
      {
        GatherStep(dsIds, a, datastream, PolsOf);
        GatherPrefix(dsIds, a + 1, datastream, PolsOf);
        var e := dsIds[a];
        if e >= 0 {
          var pols := datastream[e].recChanPols;
          var ok := NotePols(pols, haspol, pseen);
          if !ok {
            assert pseen + pols <= Gather(dsIds, datastream, PolsOf);
            UnknownPol(pseen + pols, Gather(dsIds, datastream, PolsOf));
            return haspol, false;
          }
          pseen := pseen + pols;
        }
      }
      assert dsIds[..|dsIds|] == dsIds;
      known := true;
    }

    /** The last loop of makeFreqId2IFmap: each IF's row is entered in freqId2IF and the IF is filled from the frequency table. */
    method FillIFs(freqIds: array<int>, nIF: int, freqId2IF: array<int>, maxFreqId: int, nPol: int, pol: (char, char),
                   ghost dsIds: seq<int>)
      returns (ifs: seq<IF>)
      requires SlotsIndexed(dsIds, datastream) && FreqsIndexed(datastream, freq)
      requires 0 <= nIF <= freqIds.Length && freqIds[..nIF] == IFList(dsIds, datastream, freq)
      requires maxFreqId == MaxOr0(Gather(dsIds, datastream, FreqIdsOf))
      requires freqId2IF != freqIds && freqId2IF[..] == BlankMap(maxFreqId)
      modifies freqId2IF
      ensures freqId2IF[..] == FreqMapAfter(IFList(dsIds, datastream, freq), maxFreqId)
      ensures ifs == IFRows(IFList(dsIds, datastream, freq), freq, nPol, pol)
    {
      ghost var list := IFList(dsIds, datastream, freq);
      ifs := [];
      for i := 0 to nIF
        invariant freqId2IF[..] == FreqMapAfter(list[..i], maxFreqId)
        invariant ifs == IFRows(list[..i], freq, nPol, pol)
      {
        var f := freqIds[i];
        assert list[..i + 1][..i] == list[..i] && list[i] == f;
        freqId2IF[f] := i;
        ifs := ifs + [IFOf(freq[f], nPol, pol)];
      }
      assert list[..nIF] == list;
    }

    /**
     * The sample-width scan of deriveDifxInputValues over one config's
     * datastream slots: unused slots are skipped and the scan stops at the
     * first disagreement.
     */
    method QuantBitsScan(dsIds: seq<int>) returns (qb: int)
      requires SlotsIndexed(dsIds, datastream)
      ensures qb == Consensus(Gather(dsIds, datastream, QuantBitsOf))
    {
      qb := 0;
      for a := 0 to |dsIds|
        invariant qb == Consensus(Gather(dsIds[..a], datastream, QuantBitsOf))
      {
        GatherStep(dsIds, a, datastream, QuantBitsOf);
        var e := dsIds[a];
        if e >= 0 {
          ghost var g := Gather(dsIds[..a], datastream, QuantBitsOf);
          assert Gather(dsIds[..a + 1], datastream, QuantBitsOf) == g + [datastream[e].quantBits];
          ConsensusSnoc(g, datastream[e].quantBits);
          if qb == 0 {
            qb := datastream[e].quantBits;
          } else if qb != datastream[e].quantBits {
            qb := -1;
            GatherPrefix(dsIds, a + 1, datastream, QuantBitsOf);
            ghost var whole := Gather(dsIds, datastream, QuantBitsOf);
            assert whole[..|g| + 1] == g + [datastream[e].quantBits];
            ConsensusSticks(whole, |g| + 1);
            return;
          }
        } else {
          assert Gather(dsIds[..a], datastream, QuantBitsOf) + [] == Gather(dsIds[..a], datastream, QuantBitsOf);
        }
      }
      assert dsIds[..|dsIds|] == dsIds;
    }

    /**
     * deriveDifxInputValues: with at least one config, sets the reference
     * frequency from the frequency table, each config's sample width and IF
     * fields, and, when all configs agree on the channel count, the output,
     * FFT and input channel counts. It fails, leaving everything, without
     * configs, and fails after the per-config work when the channel counts
     * disagree.
     */
    method DeriveDifxInputValues() returns (ok: bool)
      requires Indexed()
      requires |config| >= 1 && NChanOf(config) != -1 ==> specAvg != 0
      modifies this`config, this`refFreq, this`nOutChan, this`nFFT, this`nInChan
      ensures |old(config)| < 1 ==>
        !ok && config == old(config) && refFreq == old(refFreq) &&
        nOutChan == old(nOutChan) && nFFT == old(nFFT) && nInChan == old(nInChan)
      ensures |old(config)| >= 1 ==>
        && refFreq == RefFreqOf(freq)
        && |config| == |old(config)|
        && (forall c | 0 <= c < |config| :: config[c] == DeriveConfig(old(config)[c], datastream, freq))
        && (ok <==> NChanOf(old(config)) != -1)
        && (ok ==> nOutChan == ClampOutChan(old(nOutChan), NChanOf(old(config)), startChan, specAvg)
                   && nFFT == 2 * NChanOf(old(config)) && nInChan == NChanOf(old(config)))
        && (!ok ==> nOutChan == old(nOutChan) && nFFT == old(nFFT) && nInChan == old(nInChan))
    {
      if |config| < 1 {
        return false;
      }
      SetRefFreq();
      ghost var c0 := config;
      var nChan := SetQuantBits();
      ghost var c1 := config;
      MapAllConfigs();
      DeriveAll(c0, c1, config, datastream, freq);
      if nChan == -1 {
        return false;
      }
      var nc := nChan - startChan;
      if nOutChan <= 0 || nOutChan > CDiv(nc, specAvg) {
        nOutChan := CDiv(nc, specAvg);
      }
      nFFT := nChan * 2;
      nInChan := nChan;
      return true;
    }

    /**
     * The per-config loop of deriveDifxInputValues: sets each config's
     * sample width and returns the channel-count consensus.
     */
    method SetQuantBits() returns (nChan: int)
      requires Indexed()
      modifies this`config
      ensures |config| == |old(config)| && Indexed()
      ensures forall k | 0 <= k < |config| ::
        config[k] == old(config)[k].(quantBits := ConfigQuantBits(old(config)[k].datastreamIds, datastream))
      ensures nChan == NChanOf(old(config))
    {
      ghost var c0 := config;
      nChan := 0;
      for c := 0 to |config|
        invariant QuantUpTo(c, c0, config, datastream) && nChan == NChanOf(c0[..c])
      {
        var qb := QuantBitsScan(config[c].datastreamIds);
        if qb < 0 {
          qb := 0;
        }
        QuantStep(c, c0, config, datastream, qb);
        config := config[c := config[c].(quantBits := qb)];
        if nChan == 0 {
          nChan := config[c].nChan;
        } else if nChan != config[c].nChan {
          nChan := -1;
        }
      }
      assert c0[..|c0|] == c0;
    }

    /** The reference-frequency loop of deriveDifxInputValues. */
    method SetRefFreq()
      modifies this`refFreq
      ensures refFreq == RefFreqOf(freq)
    {
      refFreq := 0.0;
      for b := 0 to |freq|
        invariant refFreq == RefFreqOf(freq[..b])
      {
        assert freq[..b + 1][..b] == freq[..b];
        if freq[b].freq < refFreq || refFreq <= 0.0 {
          refFreq := freq[b].freq;
        }
      }
      assert freq[..|freq|] == freq;
    }

    /** The makeFreqId2IFmap loop of deriveDifxInputValues, over every config. */
    method MapAllConfigs()
      requires Indexed()
      modifies this`config
      ensures |config| == |old(config)| && Indexed()
      ensures forall k | 0 <= k < |config| :: config[k] == MapIFs(old(config)[k], datastream, freq).1
    {
      ghost var c1 := config;
      for c := 0 to |config|
        invariant |config| == |c1| && Indexed()
        invariant forall k | 0 <= k < |c1| :: SlotsIndexed(c1[k].datastreamIds, datastream)
        invariant forall k | 0 <= k < c :: config[k] == MapIFs(c1[k], datastream, freq).1
        invariant forall k | c <= k < |config| :: config[k] == c1[k]
      {
        MapIFsKeeps(c1[c], datastream, freq);
        var status := MakeFreqId2IFmap(c);
      }
    }

    /**
     * deriveSourceTable: with at least one scan, builds the source table,
     * one row per distinct source the scans name in order of first
     * appearance, and sets each scan's source id to its row. Without scans it
     * fails and changes nothing.
     */
    method DeriveSourceTable() returns (ok: bool)
      modifies this`scan, this`source
      ensures |old(scan)| < 1 ==> !ok && scan == old(scan) && source == old(source)
      ensures |old(scan)| >= 1 ==>
        && ok && source == Dedup(SourceKeys(old(scan))) && |scan| == |old(scan)|
        && forall s | 0 <= s < |scan| ::
             SourceOf(old(scan)[s]) in source
             && scan[s] == old(scan)[s].(sourceId := IndexOf(source, SourceOf(old(scan)[s])))
    {
      if |scan| < 1 {
        return false;
      }
      ghost var scans0 := scan;
      source := [];
      for s := 0 to |scan|
        invariant TableUpTo(s, scans0, scan, source)
      {
        EnterScan(s, scans0);
      }
      ghost var keys := SourceKeys(scans0);
      assert keys[..|scan|] == keys;
      return true;
    }

    /** One pass of deriveSourceTable's scan loop: scan `s` finds or adds its source row and records it. */
    method EnterScan(s: nat, ghost scans0: seq<Scan>)
      requires s < |scans0| && TableUpTo(s, scans0, scan, source)
      modifies this`scan, this`source
      ensures TableUpTo(s + 1, scans0, scan, source)
    {
      var key := SourceOf(scan[s]);
      var i := FindSource(source, key);
      EnterStep(s, scans0, scan, source, i);
      if i >= |source| {
        source := source + [key];
      }
      scan := scan[s := scan[s].(sourceId := i)];
    }

    /**
     * calcFreqIds: numbers the configs' distinct IF setups. Config 0 gets 0;
     * each later config gets the freqId of the first earlier config with the
     * same setup, or the next number. The count is returned, except that
     * fewer than two configs give 0.
     */
    method CalcFreqIds() returns (nFQ: int)
      requires AllShaped(config)
      modifies this`config
      ensures |config| == |old(config)|
      ensures forall c | 0 <= c < |config| :: config[c] == old(config)[c].(freqId := FreqIdTable(old(config)).0[c])
      ensures nFQ == if |config| < 2 then 0 else FreqIdTable(old(config)).1
    {
      if |config| < 1 {
        return 0;
      }
      ghost var c0 := config;
      assert c0[..1][..0] == [] && FirstSameFQ(c0[..1], 0, 0) == 0;
      config := config[0 := config[0].(freqId := 0)];
      nFQ := 1;
      if |config| < 2 {
        assert c0[..1] == c0;
        return 0;
      }
      for c := 1 to |config|
        invariant IdsUpTo(c, c0, config) && nFQ == FreqIdTable(c0[..c]).1
      {
        nFQ := NumberConfig(c, c0, nFQ);
      }
      assert c0[..|c0|] == c0;
    }

    /** One pass of calcFreqIds' outer loop: config `c` takes its freqId. */
    method NumberConfig(c: nat, ghost c0: seq<Config>, nFQ0: int) returns (nFQ: int)
      requires 1 <= c < |c0| && IdsUpTo(c, c0, config) && nFQ0 == FreqIdTable(c0[..c]).1
      modifies this`config
      ensures IdsUpTo(c + 1, c0, config) && nFQ == FreqIdTable(c0[..c + 1]).1
    {
      ghost var pre := c0[..c + 1];
      ghost var ids := FreqIdTable(c0[..c]).0;
      IdsUpToMatch(c, c0, config);
      var id := MatchingFreqId(config, c, pre, ids);
      NumberStep(c, c0, config, id, nFQ0);
      nFQ := nFQ0;
      if id == -1 {
        id := nFQ;
        nFQ := nFQ + 1;
      }
      config := config[c := config[c].(freqId := id)];
    }

    /**
     * DifxInputGetSourceIdByJobId: a time not after the job's start gives -1;
     * otherwise the source id of the first scan of that job ending after the
     * time, or -1 when there is none.
     */
    method GetSourceIdByJobId(mjd: real, jobId: int) returns (r: int)
      requires 0 <= jobId < |job|
      ensures mjd <= job[jobId].mjdStart ==> r == -1
      ensures mjd > job[jobId].mjdStart ==>
        (exists s | 0 <= s < |scan| :: ScanCovers(scan[s], mjd, jobId)
           && (forall t | 0 <= t < s :: !ScanCovers(scan[t], mjd, jobId)) && r == scan[s].sourceId)
        || (r == -1 && forall s | 0 <= s < |scan| :: !ScanCovers(scan[s], mjd, jobId))
    {
      if mjd <= job[jobId].mjdStart {
        return -1;
      }
      for s := 0 to |scan|
        invariant forall t | 0 <= t < s :: !ScanCovers(scan[t], mjd, jobId)
      {
        if mjd < scan[s].mjdEnd && scan[s].jobId == jobId {
          return scan[s].sourceId;
        }
      }
      return -1;
    }

    /** DifxInputGetAntennaId: the index of the first antenna with the name, or -1. */
    method GetAntennaId(name: string) returns (r: int)
      ensures name in antennaNames ==> r == IndexOf(antennaNames, name)
      ensures name !in antennaNames ==> r == -1
    {
      for a := 0 to |antennaNames|
        invariant name !in antennaNames[..a]
      {
        if antennaNames[a] == name {
          IndexOfUnique(antennaNames, name, a);
          return a;
        }
        assert antennaNames[..a + 1] == antennaNames[..a] + [antennaNames[a]];
      }
      assert antennaNames[..|antennaNames|] == antennaNames;
      return -1;
    }
  }

  /** One more id seen: addtolist's step on the deduplicated list, with room for it in a list as long as the frequency table. */
  lemma AddStep(seen: seq<int>, x: int, nFreq: nat)
    requires forall k | 0 <= k < |seen| :: 0 <= seen[k] < nFreq
    requires 0 <= x < nFreq
    ensures Dedup(seen + [x]) == AddNew(Dedup(seen), x)
    ensures |Dedup(seen)| < nFreq || x in Dedup(seen)
  {
    assert (seen + [x])[..|seen|] == seen;
    DedupFacts(seen + [x]);
    if x !in Dedup(seen) {
      NoDupBelow(Dedup(seen + [x]), nFreq);
    }
  }

  /** An unknown letter in a prefix is an unknown letter in the whole. */
  lemma UnknownPol(prefix: seq<char>, pols: seq<char>)
    requires prefix <= pols && !KnownPols(prefix)
    ensures !KnownPols(pols)
  {
    var k :| 0 <= k < |prefix| && prefix[k] !in PolLetters;
    assert pols[k] == prefix[k];
  }
}
