/**
 * The logo export script: every exported logo that carries image data is
 * written to a file named after the logo, slugged to lower-case letters,
 * digits and single hyphens.
 */
module LogoFiles {
  import opened Wrappers
  import opened TextRuns

  /** One entry of the export list. */
  datatype LogoExport = LogoExport(name: string, base64: Option<string>)

  /** One `writeFileSync` call: the file name and the data written. */
  datatype FileWrite = FileWrite(filename: string, data: string)

  /** `.replace(/(^-|-$)/g, '')`: drops one leading and one trailing hyphen. */
  function TrimHyphens(s: string): (r: string)
    ensures s == [] || (s[0] != '-' && s[|s| - 1] != '-') ==> r == s
    ensures |s| > 0 && s[0] == '-' && s[|s| - 1] != '-' ==> r == s[1..]
    ensures |s| > 0 && s[0] != '-' && s[|s| - 1] == '-' ==> r == s[..|s| - 1]
    ensures |s| > 1 && s[0] == '-' && s[|s| - 1] == '-' ==> r == s[1..|s| - 1]
    ensures s == "-" ==> r == []
  {
    var a := if |s| > 0 && s[0] == '-' then s[1..] else s;
    if |a| > 0 && a[|a| - 1] == '-' then a[..|a| - 1] else a
  }

  /**
   * The file name's stem: `name.toLowerCase().replace(/[^a-z0-9]+/g, '-').replace(/(^-|-$)/g, '')`.
   * It uses only `a-z`, `0-9` and single hyphens, neither starts nor ends with a
   * hyphen, and keeps the name's lower-cased letters and digits in their order
   * (see `StemSplit` for where the hyphens go).
   */
  function Stem(name: string): (r: string)
    ensures IsSlug(r)
    ensures Kept(r, NotLowerAlnum) == Kept(Lower(name), NotLowerAlnum)
  {
    var low := Lower(name);
    var dashed := ReplaceRuns(low, NotLowerAlnum);
    ReplaceRunsLeavesNoClassChar(low, NotLowerAlnum);
    ReplaceRunsSingleHyphens(low, NotLowerAlnum);
    ReplaceRunsKeepsOthers(low, NotLowerAlnum);
    TrimHyphensKeeps(dashed);
    TrimHyphens(dashed)
  }

  function FileName(name: string): (r: string)
    ensures r == Stem(name) + ".png"
    ensures |r| >= 4 && r[|r| - 4..] == ".png"
  {
    Stem(name) + ".png"
  }

  predicate IsSlug(s: string)
  {
    && (forall i :: 0 <= i < |s| ==> IsLowerAlnum(s[i]) || s[i] == '-')
    && NoAdjacentHyphens(s)
    && (|s| > 0 ==> s[0] != '-' && s[|s| - 1] != '-')
  }

  /** Dropping a leading hyphen keeps single hyphens and leaves no hyphen in front. */
  lemma DropLeadingHyphen(s: string)
    requires NoAdjacentHyphens(s) && |s| > 0 && s[0] == '-'
    ensures NoAdjacentHyphens(s[1..])
    ensures |s| > 1 ==> s[1] != '-'
  {
    var t := s[1..];
    forall i | 0 <= i < |t| - 1
      ensures !(t[i] == '-' && t[i + 1] == '-')
    {
      assert t[i] == s[i + 1] && t[i + 1] == s[i + 2];
    }
  }

  /** Dropping a trailing hyphen keeps single hyphens and leaves no hyphen at the end. */
  lemma DropTrailingHyphen(s: string)
    requires NoAdjacentHyphens(s) && |s| > 0 && s[|s| - 1] == '-'
    ensures NoAdjacentHyphens(s[..|s| - 1])
    ensures |s| > 1 ==> s[|s| - 2] != '-'
  {
  }

  /** Dropping one leading hyphen keeps hyphens single, the characters and the kept letters and digits. */
  lemma TrimLeadingKeeps(s: string) returns (a: string)
    requires NoAdjacentHyphens(s)
    ensures a == (if |s| > 0 && s[0] == '-' then s[1..] else s)
    ensures NoAdjacentHyphens(a) && (|a| > 0 ==> a[0] != '-')
    ensures (forall c :: c in a ==> c in s) && Kept(a, NotLowerAlnum) == Kept(s, NotLowerAlnum)
  {
    if |s| > 0 && s[0] == '-' {
      a := s[1..];
      DropLeadingHyphen(s);
    } else {
      a := s;
    }
  }

  /** Dropping one trailing hyphen of a string that does not start with one keeps the same properties. */
  lemma TrimTrailingKeeps(a: string) returns (r: string)
    requires NoAdjacentHyphens(a) && (|a| > 0 ==> a[0] != '-')
    ensures r == (if |a| > 0 && a[|a| - 1] == '-' then a[..|a| - 1] else a)
    ensures NoAdjacentHyphens(r) && (|r| > 0 ==> r[0] != '-' && r[|r| - 1] != '-')
    ensures (forall c :: c in r ==> c in a) && Kept(r, NotLowerAlnum) == Kept(a, NotLowerAlnum)
  {
    if |a| > 0 && a[|a| - 1] == '-' {
      DropTrailingHyphen(a);
      r := a[..|a| - 1];
      assert a == r + ['-'];
      KeptAppend(r, ['-'], NotLowerAlnum);
      assert Kept(['-'], NotLowerAlnum) == [];
      assert forall c :: c in r ==> c in a;
    } else {
      r := a;
    }
  }

  /** Trimming keeps single hyphens and the characters in between, and leaves no hyphen at either end. */
  lemma TrimHyphensKeeps(s: string)
    requires NoAdjacentHyphens(s)
    ensures var r := TrimHyphens(s);
            && NoAdjacentHyphens(r)
            && (|r| > 0 ==> r[0] != '-' && r[|r| - 1] != '-')
            && (forall c :: c in r ==> c in s)
            && Kept(r, NotLowerAlnum) == Kept(s, NotLowerAlnum)
  {
    var a := TrimLeadingKeeps(s);
    var r := TrimTrailingKeeps(a);
    assert TrimHyphens(s) == r;
  }

  lemma {:induction false} KeptAppend(a: string, b: string, p: char -> bool)
    ensures Kept(a + b, p) == Kept(a, p) + Kept(b, p)
  {
    if a == [] {
      assert a + b == b;
    } else {
      assert (a + b)[1..] == a[1..] + b;
      KeptAppend(a[1..], b, p);
    }
  }

  /**
   * Each maximal run of characters other than `a-z` and `0-9` between two parts
   * of a name that start and end with a letter or digit becomes exactly one
   * hyphen in its place; the two parts are slugged on their own.
   */
  lemma StemSplit(x: string, gap: string, y: string)
    requires |gap| > 0 && forall i :: 0 <= i < |gap| ==> NotLowerAlnum(LowerChar(gap[i]))
    requires x != [] && IsLowerAlnum(LowerChar(x[0])) && IsLowerAlnum(LowerChar(x[|x| - 1]))
    requires y != [] && IsLowerAlnum(LowerChar(y[0])) && IsLowerAlnum(LowerChar(y[|y| - 1]))
    ensures Stem(x + gap + y) == Stem(x) + "-" + Stem(y)
  {
    LowerAppend(x + gap, y);
    LowerAppend(x, gap);
    var lx, lg, ly := Lower(x), Lower(gap), Lower(y);
    assert forall i :: 0 <= i < |lg| ==> NotLowerAlnum(lg[i]);
    ReplaceRunsSplit(lx, lg, ly, NotLowerAlnum);
    var a, b := ReplaceRuns(lx, NotLowerAlnum), ReplaceRuns(ly, NotLowerAlnum);
    EdgesKept(lx);
    EdgesKept(ly);
    var joined := a + "-" + b;
    assert joined[0] == a[0] && joined[|joined| - 1] == b[|b| - 1];
  }

  /**
   * Slugging a name that starts and ends with a letter or digit trims nothing:
   * its rewritten form starts and ends with that letter or digit.
   */
  lemma EdgesKept(low: string)
    requires low != [] && IsLowerAlnum(low[0]) && IsLowerAlnum(low[|low| - 1])
    ensures var d := ReplaceRuns(low, NotLowerAlnum);
            d != [] && d[0] != '-' && d[|d| - 1] != '-' && TrimHyphens(d) == d
  {
    ReplaceRunsHead(low, NotLowerAlnum);
    ReplaceRunsLast(low, NotLowerAlnum);
  }

  /** A slug is already in lower case. */
  lemma {:induction false} LowerOfSlug(s: string)
    requires forall i :: 0 <= i < |s| ==> IsLowerAlnum(s[i]) || s[i] == '-'
    ensures Lower(s) == s
  {
    if s != [] {
      LowerOfSlug(s[1..]);
    }
  }

  /** A slug has nothing to trim. */
  lemma TrimSlug(s: string)
    requires IsSlug(s)
    ensures TrimHyphens(s) == s
  {
  }

  /** Slugging a stem again changes nothing. */
  lemma StemIdempotent(name: string)
    ensures Stem(Stem(name)) == Stem(name)
  {
    var s := Stem(name);
    LowerOfSlug(s);
    assert forall i :: 0 <= i < |s| ==> s[i] == '-' || !NotLowerAlnum(s[i]);
    ReplaceRunsFixedPoint(s, NotLowerAlnum);
    TrimSlug(s);
  }

  /** The writes the script makes for `logos`, in order: only entries with image data. */
  function Writes(logos: seq<LogoExport>): (r: seq<FileWrite>)
    ensures |r| <= |logos|
  {
    if logos == [] then []
    else
      var rest := Writes(logos[1..]);
      if Truthy(logos[0].base64) then [FileWrite(FileName(logos[0].name), logos[0].base64.value)] + rest
      else rest
  }

  /** `w` is the write the script makes for entry `l`. */
  predicate WriteOf(l: LogoExport, w: FileWrite)
  {
    Truthy(l.base64) && w == FileWrite(FileName(l.name), l.base64.value)
  }

  /** Each write comes from an entry with image data and is named after that entry. */
  lemma {:induction false} WritesFromEntries(logos: seq<LogoExport>)
    ensures forall w :: w in Writes(logos) ==> exists l :: l in logos && WriteOf(l, w)
  {
    if logos != [] {
      WritesFromEntries(logos[1..]);
      forall w | w in Writes(logos)
        ensures exists l :: l in logos && WriteOf(l, w)
      {
        if w !in Writes(logos[1..]) {
          assert WriteOf(logos[0], w);
        } else {
          var l :| l in logos[1..] && WriteOf(l, w);
          assert l in logos;
        }
      }
    }
  }

  /** The number of files written is the number of entries with image data. */
  function CountWithData(logos: seq<LogoExport>): nat
  {
    if logos == [] then 0 else (if Truthy(logos[0].base64) then 1 else 0) + CountWithData(logos[1..])
  }

  lemma {:induction false} WritesCount(logos: seq<LogoExport>)
    ensures |Writes(logos)| == CountWithData(logos)
  {
    if logos != [] {
      WritesCount(logos[1..]);
    }
  }

  /** An entry without image data produces no file. */
  lemma {:induction false} WritesSkipEmpty(logos: seq<LogoExport>)
    requires forall i :: 0 <= i < |logos| ==> !Truthy(logos[i].base64)
    ensures Writes(logos) == []
  {
    if logos != [] {
      WritesSkipEmpty(logos[1..]);
    }
  }

  lemma {:induction false} WritesAppend(a: seq<LogoExport>, b: seq<LogoExport>)
    ensures Writes(a + b) == Writes(a) + Writes(b)
  {
    if a == [] {
      assert a + b == b;
    } else {
      assert (a + b)[1..] == a[1..] + b;
      WritesAppend(a[1..], b);
    }
  }

  /** The directory after a run: file name to data, a later write to the same name replacing an earlier one. */
  function Directory(writes: seq<FileWrite>): (dir: map<string, string>)
    ensures forall w :: w in writes ==> w.filename in dir
    ensures forall f :: f in dir ==> exists w :: w in writes && w.filename == f && dir[f] == w.data
  {
    if writes == [] then map[]
    else
      var last := writes[|writes| - 1];
      var before := Directory(writes[..|writes| - 1]);
      assert forall w :: w in writes ==> w in writes[..|writes| - 1] || w == last;
      before[last.filename := last.data]
  }

  /**
   * Last write wins: a file holds the data of the last write to it, whatever
   * was written to it or to other files before.
   */
  lemma {:induction false} LastWriteWins(writes: seq<FileWrite>, k: nat)
    requires k < |writes|
    requires forall j :: k < j < |writes| ==> writes[j].filename != writes[k].filename
    ensures writes[k].filename in Directory(writes)
    ensures Directory(writes)[writes[k].filename] == writes[k].data
    decreases |writes|
  {
    var n := |writes|;
    if k == n - 1 {
      LastWriteLands(writes);
    } else {
      var before := writes[..n - 1];
      assert before[k] == writes[k];
      assert forall j :: k < j < |before| ==> before[j] == writes[j];
      LastWriteWins(before, k);
      OtherWriteKeeps(writes, writes[k].filename);
    }
  }

  /** The last write's data is what its file holds. */
  lemma LastWriteLands(writes: seq<FileWrite>)
    requires writes != []
    ensures writes[|writes| - 1].filename in Directory(writes)
    ensures Directory(writes)[writes[|writes| - 1].filename] == writes[|writes| - 1].data
  {
  }

  /** A write to another file leaves what a file holds unchanged. */
  lemma OtherWriteKeeps(writes: seq<FileWrite>, f: string)
    requires writes != [] && writes[|writes| - 1].filename != f
    requires f in Directory(writes[..|writes| - 1])
    ensures f in Directory(writes)
    ensures Directory(writes)[f] == Directory(writes[..|writes| - 1])[f]
  {
  }

  /** Of two writes to the same file, the second one's data is what remains. */
  lemma SecondWriteWins(w1: FileWrite, w2: FileWrite)
    requires w1.filename == w2.filename
    ensures Directory([w1, w2]) == map[w1.filename := w2.data]
  {
    assert [w1, w2][..1] == [w1];
    assert [w1][..0] == [];
  }

  /**
   * Two logos whose names slug to the same stem share one file: the one
   * listed later overwrites the other.
   */
  lemma LaterLogoWins(first: LogoExport, second: LogoExport)
    requires Truthy(first.base64) && Truthy(second.base64)
    requires Stem(first.name) == Stem(second.name)
    ensures Directory(Writes([first, second])) == map[FileName(first.name) := second.base64.value]
  {
    var w1 := FileWrite(FileName(first.name), first.base64.value);
    var w2 := FileWrite(FileName(second.name), second.base64.value);
    assert [first, second][1..] == [second];
    assert [second][1..] == [];
    assert Writes([first, second]) == [w1, w2];
    SecondWriteWins(w1, w2);
  }

  /** The script's `forEach` loop, writing one file per logo with data, in list order. */
  method SaveLogos(logos: seq<LogoExport>) returns (written: seq<FileWrite>)
    ensures written == Writes(logos)
  {
    written := [];
    var i := 0;
    while i < |logos|
      invariant 0 <= i <= |logos|
      invariant written == Writes(logos[..i])
    {
      var logo := logos[i];
      WritesAppend(logos[..i], [logo]);
      assert logos[..i + 1] == logos[..i] + [logo];
      assert [logo][1..] == [];
      if Truthy(logo.base64) {
        written := written + [FileWrite(FileName(logo.name), logo.base64.value)];
      }
      i := i + 1;
    }
    assert logos[..i] == logos;
  }
}
