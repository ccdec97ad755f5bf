/**
 * The HOPS `fileset` routine: given the absolute path of a Mk4 root file,
 * it cuts the path into the scan directory, the root name, the root code,
 * the scan name and the experiment number, then reads the entries of the
 * scan directory and records the correlator files that belong to the same
 * root.  The directory listing and the file-name analysis of each entry are
 * inputs here.
 */
module HopsFileset {
  import opened Common

  /* ---------- strrchr and cutting a string at a character ---------- */

  /** The position of the last occurrence of `c` in `s`, if any. */
  function LastIndex(s: string, c: char): (r: Option<nat>)
    ensures r.None? <==> c !in s
    ensures r.Some? ==> r.value < |s| && s[r.value] == c && c !in s[r.value + 1..]
  {
    if s == [] then None
    else if s[|s| - 1] == c then Some(|s| - 1)
    else
      var r := LastIndex(s[..|s| - 1], c);
      assert s == s[..|s| - 1] + [s[|s| - 1]];
      r
  }

  /**
   * The text before and after the last `c` of `s`: what is left when a
   * terminator is stored over that `c`, and what follows it.
   */
  function CutLast(s: string, c: char): (r: (string, string))
    requires c in s
    ensures r.0 + [c] + r.1 == s
    ensures c !in r.1
  {
    var i := LastIndex(s, c).value;
    assert s[..i] + [c] + s[i + 1..] == s;
    (s[..i], s[i + 1..])
  }

  /* ---------- sscanf's %hd ---------- */

  predicate IsSpace(c: char)
  {
    c == ' ' || c == '\t' || c == '\n' || c == '\r' || c == '\U{000B}' || c == '\U{000C}'
  }

  predicate IsDigit(c: char)
  {
    '0' <= c <= '9'
  }

  predicate AllDigits(s: string)
  {
    forall i | 0 <= i < |s| :: IsDigit(s[i])
  }

  /** The number of leading white-space characters. */
  function Spaces(s: string): (n: nat)
    ensures n <= |s| && (forall i | 0 <= i < n :: IsSpace(s[i])) && (n < |s| ==> !IsSpace(s[n]))
  {
    if s == [] || !IsSpace(s[0]) then 0 else 1 + Spaces(s[1..])
  }

  /** The length of the run of digits `s` starts with. */
  function DigitRun(s: string): (n: nat)
    ensures n <= |s| && AllDigits(s[..n]) && (n < |s| ==> !IsDigit(s[n]))
  {
    if s == [] || !IsDigit(s[0]) then 0
    else
      var n := 1 + DigitRun(s[1..]);
      assert forall i | 1 <= i < n :: s[..n][i] == s[1..][..n - 1][i - 1];
      n
  }

  /** The decimal value of a string of digits. */
  function Decimal(d: string): nat
    requires AllDigits(d)
  {
    if d == [] then 0 else Decimal(d[..|d| - 1]) * 10 + (d[|d| - 1] - '0') as nat
  }

  const LongMin: int := -0x8000_0000_0000_0000
  const LongMax: int := 0x7FFF_FFFF_FFFF_FFFF

  /** strtol's saturation at the range of a 64-bit `long`. */
  function ClampLong(v: int): (r: int)
    ensures LongMin <= r <= LongMax
    ensures LongMin <= v <= LongMax ==> r == v
    ensures v > LongMax ==> r == LongMax
    ensures v < LongMin ==> r == LongMin
  {
    if v > LongMax then LongMax else if v < LongMin then LongMin else v
  }

  /** The value a `short` holds after a conversion from a wider integer: two's-complement wrap-around. */
  function ToShort(v: int): (r: int)
    ensures -0x8000 <= r < 0x8000
    ensures (v - r) % 0x1_0000 == 0
    ensures -0x8000 <= v < 0x8000 ==> r == v
  {
    (v + 0x8000) % 0x1_0000 - 0x8000
  }

  /**
   * What `sscanf(s, "%hd", &x)` stores in `x`, or `None` when it converts
   * nothing: leading white space, then a number, which strtol saturates
   * at the range of `long` and the store into a `short` wraps.
   */
  function ScanShort(s: string): Option<int>
  {
    match SignedValue(s[Spaces(s)..])
    case None => None
    case Some(v) => Some(ToShort(ClampLong(v)))
  }

  /** The value of the optional sign and the run of digits `t` starts with, if there is at least one digit. */
  function SignedValue(t: string): Option<int>
  {
    var signed := |t| > 0 && (t[0] == '-' || t[0] == '+');
    var u := if signed then t[1..] else t;
    var n := DigitRun(u);
    if n == 0 then None
    else
      var v: int := Decimal(u[..n]);
      Some(if signed && t[0] == '-' then -v else v)
  }

  /** The decimal digits of `n`, without leading zeros. */
  function ShowNat(n: nat): (d: string)
    ensures |d| > 0 && AllDigits(d)
  {
    (if n < 10 then [] else ShowNat(n / 10)) + ['0' + (n % 10) as char]
  }

  /** How a `short` is written by printf's %hd. */
  function ShowShort(v: int): string
  {
    if v < 0 then "-" + ShowNat(-v) else ShowNat(v)
  }

  /** Reading the digits of a number back gives the number. */
  lemma {:induction false} DecimalShowNat(n: nat)
    ensures Decimal(ShowNat(n)) == n
  {
    var pre := if n < 10 then [] else ShowNat(n / 10);
    var c := '0' + (n % 10) as char;
    DigitChar(n % 10);
    var d := ShowNat(n);
    assert d == pre + [c];
    assert d[..|d| - 1] == pre && d[|d| - 1] == c;
    if n >= 10 {
      DecimalShowNat(n / 10);
    }
    assert Decimal(d) == Decimal(pre) * 10 + n % 10;
  }

  /** The character of a decimal digit, and back. */
  lemma DigitChar(k: nat)
    requires k < 10
    ensures IsDigit('0' + k as char) && (('0' + k as char) - '0') as nat == k
  {
  }

  /** A digit string, alone, has its decimal value. */
  lemma DigitsValue(d: string)
    requires |d| > 0 && AllDigits(d)
    ensures SignedValue(d) == Some(Decimal(d))
  {
    assert !(d[0] == '-' || d[0] == '+') by {
      assert IsDigit(d[0]);
    }
    assert DigitRun(d) == |d| && d[..|d|] == d;
  }

  /** A minus sign followed by digits has the negated value. */
  lemma NegativeDigitsValue(t: string)
    requires |t| > 1 && t[0] == '-' && AllDigits(t[1..])
    ensures SignedValue(t) == Some(-(Decimal(t[1..]) as int))
  {
    var d := t[1..];
    assert DigitRun(d) == |d| && d[..|d|] == d;
  }

  /** %hd reads back every value a `short` can hold as %hd writes it. */
  lemma ScanShortShow(v: int)
    requires -0x8000 <= v < 0x8000
    ensures ScanShort(ShowShort(v)) == Some(v)
  {
    if v < 0 {
      ScanNegative(ShowShort(v), -v);
    } else {
      ScanNonNegative(ShowShort(v), v);
    }
  }

  lemma ScanNegative(s: string, n: nat)
    requires 0 < n <= 0x8000 && s == "-" + ShowNat(n)
    ensures ScanShort(s) == Some(-(n as int))
  {
    assert Spaces(s) == 0 && s[0..] == s;
    assert s[1..] == ShowNat(n);
    NegativeDigitsValue(s);
    DecimalShowNat(n);
  }

  lemma ScanNonNegative(s: string, n: nat)
    requires n < 0x8000 && s == ShowNat(n)
    ensures ScanShort(s) == Some(n)
  {
    assert Spaces(s) == 0 by {
      assert IsDigit(s[0]);
    }
    assert s[0..] == s;
    DigitsValue(s);
    DecimalShowNat(n);
  }

  /* ---------- the regular expression [^0-9]*([0-9]{4})[^0-9]* ---------- */

  predicate NoDigits(s: string)
  {
    forall i | 0 <= i < |s| :: !IsDigit(s[i])
  }

  /** Four digits in a row start at `p`. */
  predicate WindowAt(s: string, p: nat)
  {
    p + 4 <= |s| && AllDigits(s[p..p + 4])
  }

  /** The first position from `p` on where four digits in a row start. */
  function FirstWindowFrom(s: string, p: nat): (r: Option<nat>)
    ensures r.Some? ==> p <= r.value && WindowAt(s, r.value) && forall q | p <= q < r.value :: !WindowAt(s, q)
    ensures r.None? ==> forall q | p <= q :: !WindowAt(s, q)
    decreases |s| - p
  {
    if p + 4 > |s| then None
    else if WindowAt(s, p) then Some(p)
    else FirstWindowFrom(s, p + 1)
  }

  function FirstWindow(s: string): Option<nat>
  {
    FirstWindowFrom(s, 0)
  }

  /** The expression matches `s` from `q` on with its group at `p..p+4`. */
  predicate MatchAt(s: string, q: nat, p: nat)
  {
    WindowAt(s, p) && q <= p && NoDigits(s[q..p])
  }

  /**
   * regexec's search finds a match exactly when four digits in a row
   * occur, and every match that starts no later than the first such run
   * (among them the leftmost match) puts its group on that run.
   */
  lemma RegexGroup(s: string)
    ensures FirstWindow(s).None? ==> forall q: nat, p: nat :: !MatchAt(s, q, p)
    ensures FirstWindow(s).Some? ==> MatchAt(s, FirstWindow(s).value, FirstWindow(s).value)
    ensures FirstWindow(s).Some? ==>
      forall q: nat, p: nat | q <= FirstWindow(s).value && MatchAt(s, q, p) :: p == FirstWindow(s).value
  {
    if FirstWindow(s).Some? {
      var w := FirstWindow(s).value;
      assert NoDigits(s[w..w]);
      assert IsDigit(s[w]) by {
        assert s[w..w + 4][0] == s[w];
      }
      forall q: nat, p: nat | q <= w && MatchAt(s, q, p)
        ensures p == w
      {
        forall k | q <= k < p
          ensures !IsDigit(s[k])
        {
          assert s[q..p][k - q] == s[k];
        }
      }
    }
  }

  /* ---------- the experiment number ---------- */

  /** The experiment number read from the experiment directory's name, and whether it is accepted. */
  datatype ExpnoParse = ExpnoParse(expno: int, ok: bool)

  /**
   * A name that starts with a number (%hd) gives that number, unchecked;
   * otherwise the first four digits in a row, which must make 1..9999,
   * and 0 when there are none.
   */
  function ExpnoOf(dir: string): (r: ExpnoParse)
    ensures ScanShort(dir).Some? ==> r.ok && r.expno == ScanShort(dir).value
    ensures ScanShort(dir).None? ==> (r.ok <==> 1 <= r.expno <= 9999)
    ensures ScanShort(dir).None? && FirstWindow(dir).None? ==> !r.ok && r.expno == 0
  {
    match ScanShort(dir)
    case Some(v) => ExpnoParse(v, true)
    case None =>
      var n := match FirstWindow(dir)
        case Some(p) => FourDigits(dir[p..p + 4])
        case None => 0;
      ExpnoParse(n, 0 < n <= 9999)
  }

  /** atoi of four digits. */
  function FourDigits(d: string): (n: nat)
    requires |d| == 4 && AllDigits(d)
    ensures n <= 9999
  {
    (d[0] - '0') as nat * 1000 + (d[1] - '0') as nat * 100 + (d[2] - '0') as nat * 10 + (d[3] - '0') as nat
  }

  /** A name such as "exp1234" that does not start with a number gives the number its first four-digit run spells. */
  lemma ExpnoFromRun(dir: string, p: nat)
    requires ScanShort(dir).None? && WindowAt(dir, p) && NoDigits(dir[..p])
    ensures ExpnoOf(dir).expno == FourDigits(dir[p..p + 4])
  {
    var w := FirstWindow(dir).value;
    assert IsDigit(dir[w]) by {
      assert dir[w..w + 4][0] == dir[w];
    }
    forall k | 0 <= k < p
      ensures !IsDigit(dir[k])
    {
      assert dir[..p][k] == dir[k];
    }
  }

  /* ---------- directory entries ---------- */

  /** What the file-name analysis reports for a correlator file; `kind` 0 marks the root file. */
  datatype FileInfo = FileInfo(rootcode: string, kind: int, source: string, filenum: int)

  /** A directory entry and the analysis of its name (`None` for a name that is not a correlator file's). */
  datatype DirEntry = DirEntry(name: string, info: Option<FileInfo>)

  /** A recorded member of the file set: its analysis and its file name. */
  datatype Member = Member(info: FileInfo, name: string)

  /** The bookkeeping over the entries read so far. */
  datatype Tally = Tally(maxfile: int, files: seq<Member>, ok: bool)

  /** The entry is ".", "..", or not a correlator file. */
  predicate Ignored(e: DirEntry)
  {
    e.name == "." || e.name == ".." || e.info.None?
  }

  /** The entry is a correlator file of this root. */
  predicate InSet(e: DirEntry, rootcode: string)
  {
    !Ignored(e) && e.info.value.rootcode == rootcode
  }

  /** The entry is a member of the file set other than the root file. */
  predicate Kept(e: DirEntry, rootcode: string)
  {
    InSet(e, rootcode) && e.info.value.kind != 0
  }

  /** The entry is a root file of this root whose name is not the root file's own. */
  predicate Discrepant(e: DirEntry, rootcode: string, rootname: string)
  {
    InSet(e, rootcode) && e.info.value.kind == 0 && e.info.value.source + "." + rootcode != rootname
  }

  /** One entry of the directory loop. */
  function Visit(t: Tally, e: DirEntry, rootcode: string, rootname: string): Tally
  {
    if Ignored(e) || e.info.value.rootcode != rootcode then t
    else
      var f := e.info.value;
      if f.kind == 0 then
        (if f.source + "." + rootcode == rootname then t else t.(ok := false))
      else
        t.(maxfile := if f.filenum > t.maxfile then f.filenum else t.maxfile,
           files := t.files + [Member(f, e.name)])
  }

  /** The directory loop over `entries`, from a cleared structure, stopping at a discrepant root file. */
  function TallyOf(entries: seq<DirEntry>, rootcode: string, rootname: string): Tally
  {
    if entries == [] then Tally(0, [], true)
    else
      var t := TallyOf(entries[..|entries| - 1], rootcode, rootname);
      if t.ok then Visit(t, entries[|entries| - 1], rootcode, rootname) else t
  }

  /** The members the entries name, in directory order. */
  function KeptMembers(entries: seq<DirEntry>, rootcode: string): seq<Member>
  {
    if entries == [] then []
    else
      var e := entries[|entries| - 1];
      KeptMembers(entries[..|entries| - 1], rootcode) + if Kept(e, rootcode) then [Member(e.info.value, e.name)] else []
  }

  /**
   * The loop gets through the directory exactly when no root file of this
   * root has a discrepant name, and then it has recorded every other member.
   */
  lemma {:induction false} TallyComplete(entries: seq<DirEntry>, rootcode: string, rootname: string)
    ensures TallyOf(entries, rootcode, rootname).ok <==>
      forall i | 0 <= i < |entries| :: !Discrepant(entries[i], rootcode, rootname)
    ensures TallyOf(entries, rootcode, rootname).ok ==>
      TallyOf(entries, rootcode, rootname).files == KeptMembers(entries, rootcode)
  {
    if entries != [] {
      var n := |entries| - 1;
      TallyComplete(entries[..n], rootcode, rootname);
      assert forall i | 0 <= i < n :: entries[..n][i] == entries[i];
    }
  }

  /**
   * When the loop stops at a discrepant root file, it has recorded the
   * members before it.
   */
  lemma {:induction false} TallyStops(entries: seq<DirEntry>, rootcode: string, rootname: string) returns (i: nat)
    requires !TallyOf(entries, rootcode, rootname).ok
    ensures i < |entries| && Discrepant(entries[i], rootcode, rootname)
    ensures forall j | 0 <= j < i :: !Discrepant(entries[j], rootcode, rootname)
    ensures TallyOf(entries, rootcode, rootname) == TallyOf(entries[..i], rootcode, rootname).(ok := false)
  {
    var n := |entries| - 1;
    var pre := entries[..n];
    if TallyOf(pre, rootcode, rootname).ok {
      i := n;
      TallyComplete(pre, rootcode, rootname);
      assert forall j | 0 <= j < n :: pre[j] == entries[j];
    } else {
      i := TallyStops(pre, rootcode, rootname);
      assert pre[..i] == entries[..i];
    }
  }

  /**
   * `maxfile` is the largest file number among the recorded members, and 0
   * when none is larger.
   */
  lemma {:induction false} TallyMax(entries: seq<DirEntry>, rootcode: string, rootname: string)
    ensures var t := TallyOf(entries, rootcode, rootname);
      t.maxfile >= 0
      && (forall i | 0 <= i < |t.files| :: t.files[i].info.filenum <= t.maxfile)
      && (t.maxfile == 0 || exists i | 0 <= i < |t.files| :: t.files[i].info.filenum == t.maxfile)
  {
    if entries != [] {
      var n := |entries| - 1;
      var t0, t := TallyOf(entries[..n], rootcode, rootname), TallyOf(entries, rootcode, rootname);
      TallyMax(entries[..n], rootcode, rootname);
      if t.files != t0.files {
        var f := entries[n].info.value;
        assert t.files == t0.files + [Member(f, entries[n].name)];
        if f.filenum > t0.maxfile {
          assert t.files[|t0.files|].info.filenum == t.maxfile;
        } else if t.maxfile != 0 {
          var i :| 0 <= i < |t0.files| && t0.files[i].info.filenum == t0.maxfile;
          assert t.files[i] == t0.files[i];
        }
      }
    }
  }

  /** Every recorded member belongs to this root and is not the root file. */
  lemma {:induction false} TallyMembers(entries: seq<DirEntry>, rootcode: string, rootname: string)
    ensures forall m | m in TallyOf(entries, rootcode, rootname).files :: m.info.rootcode == rootcode && m.info.kind != 0
  {
    if entries != [] {
      var n := |entries| - 1;
      TallyMembers(entries[..n], rootcode, rootname);
    }
  }

  /* ---------- the whole routine ---------- */

  /** The fields of the structure `fileset` fills in. */
  datatype Fset = Fset(expno: int, scandir: string, scanname: string, rootname: string, maxfile: int, files: seq<Member>)

  const Cleared: Fset := Fset(0, "", "", "", 0, [])

  /** The status and the structure after a call. */
  datatype Outcome = Outcome(rc: int, fset: Fset)

  /**
   * The path's last component names its root code after a '.': without
   * one, the code steps past the NULL that strrchr returns.
   */
  predicate NamesRootCode(path: string)
  {
    |path| > 0 && path[0] == '/' ==> '.' in CutLast(path, '/').1
  }

  /** The text after the last '.' of a root name. */
  function RootCode(rootname: string): (code: string)
    requires '.' in rootname
    ensures '.' !in code
    ensures exists stem :: stem + "." + code == rootname
  {
    var (stem, code) := CutLast(rootname, '.');
    assert stem + "." + code == rootname;
    code
  }

  /**
   * fileset: the status and the filled structure, for the root file `path`
   * and the listing of its scan directory (`None` when it cannot be
   * opened).  Every failure leaves what was filled in before it.
   */
  function FilesetOf(path: string, listing: Option<seq<DirEntry>>): (o: Outcome)
    requires NamesRootCode(path)
    ensures o.rc == 0 || o.rc == -1
    ensures (|path| == 0 || path[0] != '/') ==> o == Outcome(-1, Cleared)
    ensures |path| > 0 && path[0] == '/' ==>
      o.fset.scandir + "/" + o.fset.rootname == path && '/' !in o.fset.rootname
    ensures o.rc == 0 ==> listing.Some?
  {
    if |path| == 0 || path[0] != '/' then Outcome(-1, Cleared)
    else InScanDir(CutLast(path, '/').0, CutLast(path, '/').1, listing)
  }

  /** fileset once the path is cut into the scan directory and the root name. */
  function InScanDir(scandir: string, rootname: string, listing: Option<seq<DirEntry>>): (o: Outcome)
    requires '.' in rootname
    ensures o.fset.scandir == scandir && o.fset.rootname == rootname
    ensures o.rc == 0 ==> '/' in scandir && '/' in CutLast(scandir, '/').0 && listing.Some?
    ensures o.rc == 0 ==> ExpnoOf(CutLast(CutLast(scandir, '/').0, '/').1).ok
    ensures o.rc == 0 ==> TallyOf(listing.value, RootCode(rootname), rootname) == Tally(o.fset.maxfile, o.fset.files, true)
  {
    var f1 := Cleared.(scandir := scandir, rootname := rootname);
    if '/' !in scandir then Outcome(-1, f1)
    else
      var parent := CutLast(scandir, '/').0;
      var f2 := f1.(scanname := CutLast(scandir, '/').1);
      if '/' !in parent then Outcome(-1, f2)
      else
        var ex := ExpnoOf(CutLast(parent, '/').1);
        var f3 := f2.(expno := ex.expno);
        if !ex.ok || listing.None? then Outcome(-1, f3)
        else
          var t := TallyOf(listing.value, RootCode(rootname), rootname);
          Outcome(if t.ok then 0 else -1, f3.(maxfile := t.maxfile, files := t.files))
  }

  /**
   * A successful call: the path is the scan directory's path, the
   * experiment directory, the scan name and the root name joined by '/',
   * and the experiment number was read from the experiment directory.
   */
  lemma FilesetPath(path: string, listing: Option<seq<DirEntry>>)
    requires NamesRootCode(path) && FilesetOf(path, listing).rc == 0
    ensures var f := FilesetOf(path, listing).fset;
      exists top, expdir ::
        f.scandir == top + "/" + expdir + "/" + f.scanname
        && '/' !in expdir && '/' !in f.scanname
        && ExpnoOf(expdir).ok && f.expno == ExpnoOf(expdir).expno
  {
    var scandir := CutLast(path, '/').0;
    var parent := CutLast(scandir, '/').0;
    var top, expdir := CutLast(parent, '/').0, CutLast(parent, '/').1;
    assert scandir == top + "/" + expdir + "/" + CutLast(scandir, '/').1;
  }

  /**
   * A successful call records exactly the non-root members of the root's
   * file set, in directory order, and `maxfile` is their largest file
   * number (0 when none is positive).
   */
  lemma FilesetMembers(path: string, listing: Option<seq<DirEntry>>)
    requires NamesRootCode(path) && FilesetOf(path, listing).rc == 0
    ensures var f := FilesetOf(path, listing).fset;
      '.' in f.rootname
      && f.files == KeptMembers(listing.value, RootCode(f.rootname))
      && f.maxfile >= 0 && (forall i | 0 <= i < |f.files| :: f.files[i].info.filenum <= f.maxfile)
      && (f.maxfile == 0 || exists i | 0 <= i < |f.files| :: f.files[i].info.filenum == f.maxfile)
  {
    var rootname := CutLast(path, '/').1;
    var rootcode := RootCode(rootname);
    TallyComplete(listing.value, rootcode, rootname);
    TallyMax(listing.value, rootcode, rootname);
  }

  /** The structure `fileset` fills in, updated in place. */
  class Fileset {
    var expno: int
    var scandir: string
    var scanname: string
    var rootname: string
    var maxfile: int
    var files: seq<Member>

    /** The structure's fields as a value. */
    function State(): Fset
      reads this
    {
      Fset(expno, scandir, scanname, rootname, maxfile, files)
    }

    constructor()
      ensures State() == Cleared
    {
      expno, scandir, scanname, rootname, maxfile, files := 0, "", "", "", 0, [];
    }

    /**
     * fileset(path, this): clears the structure, dissects the path, reads
     * the experiment number, then records the scan directory's members.
     */
    method Fill(path: string, listing: Option<seq<DirEntry>>) returns (rc: int)
      requires NamesRootCode(path)
      modifies this
      ensures rc == FilesetOf(path, listing).rc && State() == FilesetOf(path, listing).fset
    {
      expno, scandir, scanname, rootname, maxfile, files := 0, "", "", "", 0, [];
      if |path| == 0 || path[0] != '/' {
        return -1;
      }
      scandir, rootname := CutLast(path, '/').0, CutLast(path, '/').1;
      var rootcode := RootCode(rootname);
      var temp := scandir;
      if '/' !in temp {
        return -1;
      }
      temp, scanname := CutLast(temp, '/').0, CutLast(temp, '/').1;
      if '/' !in temp {
        return -1;
      }
      var ok;
      expno, ok := ReadExpno(CutLast(temp, '/').1);
      if !ok || listing.None? {
        return -1;
      }
      rc := ReadEntries(listing.value, rootcode);
    }

    /**
     * The experiment number: %hd when the name starts with a number,
     * otherwise the first four digits in a row, checked against 1..9999.
     */
    static method ReadExpno(dir: string) returns (expno: int, ok: bool)
      ensures ExpnoParse(expno, ok) == ExpnoOf(dir)
    {
      var scanned := ScanShort(dir);
      if scanned.Some? {
        return scanned.value, true;
      }
      expno := 0;
      var w := FirstWindow(dir);
      if w.Some? {
        expno := FourDigits(dir[w.value..w.value + 4]);
      }
      ok := 0 < expno <= 9999;
    }

    /**
     * The directory loop: skips "." and "..", entries that are not
     * correlator files and entries of other roots; checks the root file's
     * name; records every other member and the largest file number.
     */
    method ReadEntries(entries: seq<DirEntry>, rootcode: string) returns (rc: int)
      requires maxfile == 0 && files == []
      modifies this`maxfile, this`files
      ensures var t := TallyOf(entries, rootcode, rootname);
        rc == (if t.ok then 0 else -1) && maxfile == t.maxfile && files == t.files
    {
      for n := 0 to |entries|
        invariant TallyOf(entries[..n], rootcode, rootname) == Tally(maxfile, files, true)
      {
        assert entries[..n + 1][..n] == entries[..n];
        var e := entries[n];
        if e.name == "." || e.name == ".." {
          continue;
        }
        if e.info.None? {
          continue;
        }
        var f := e.info.value;
        if f.rootcode != rootcode {
          continue;
        }
        if f.kind == 0 {
          var temp := f.source + "." + rootcode;
          if temp != rootname {
            TallyPrefix(entries, n + 1, rootcode, rootname);
            return -1;
          }
          continue;
        }
        if f.filenum > maxfile {
          maxfile := f.filenum;
        }
        files := files + [Member(f, e.name)];
      }
      assert entries[..|entries|] == entries;
      rc := 0;
    }
  }

  /** After the loop has stopped, the remaining entries change nothing. */
  lemma {:induction false} TallyPrefix(entries: seq<DirEntry>, k: nat, rootcode: string, rootname: string)
    requires k <= |entries| && !TallyOf(entries[..k], rootcode, rootname).ok
    ensures TallyOf(entries, rootcode, rootname) == TallyOf(entries[..k], rootcode, rootname)
  {
    if k < |entries| {
      var n := |entries| - 1;
      assert entries[..n][..k] == entries[..k];
      TallyPrefix(entries[..n], k, rootcode, rootname);
    } else {
      assert entries[..k] == entries;
    }
  }
}
