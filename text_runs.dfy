/**
 * ASCII character classes and the two string rewrites the site uses:
 * `toLowerCase()` and `replace(/<class>+/g, "-")`, which turns every maximal
 * run of characters of one class into a single hyphen.
 */
module TextRuns {

  predicate IsUpper(c: char) { 'A' <= c <= 'Z' }

  predicate IsLowerAlnum(c: char) { 'a' <= c <= 'z' || '0' <= c <= '9' }

  /** The ASCII members of the regular-expression class `\s`. */
  predicate IsWhitespace(c: char)
  {
    c == ' ' || c == '\t' || c == '\n' || c == '\r' || c == '\U{B}' || c == '\U{C}'
  }

  /** The regular-expression class `[^a-z0-9]`. */
  predicate NotLowerAlnum(c: char) { !IsLowerAlnum(c) }

  function LowerChar(c: char): (r: char)
    ensures !IsUpper(r)
    ensures IsUpper(c) ==> r as int == c as int + 32
    ensures !IsUpper(c) ==> r == c
  {
    if IsUpper(c) then (c as int + 32) as char else c
  }

  /** `toLowerCase()` over ASCII. */
  function Lower(s: string): (r: string)
    ensures |r| == |s|
    ensures forall i :: 0 <= i < |s| ==> r[i] == LowerChar(s[i])
  {
    if s == [] then [] else [LowerChar(s[0])] + Lower(s[1..])
  }

  /** Lower-casing works character by character, so it distributes over concatenation. */
  lemma LowerAppend(a: string, b: string)
    ensures Lower(a + b) == Lower(a) + Lower(b)
  {
    var l, r := Lower(a + b), Lower(a) + Lower(b);
    assert forall i :: 0 <= i < |l| ==> l[i] == r[i] by {
      forall i | 0 <= i < |l|
        ensures l[i] == r[i]
      {
        if i < |a| {
          assert (a + b)[i] == a[i];
        } else {
          assert (a + b)[i] == b[i - |a|];
        }
      }
    }
  }

  /** Lower-casing neither creates nor removes whitespace. */
  lemma LowerCharWhitespace(c: char)
    ensures IsWhitespace(LowerChar(c)) <==> IsWhitespace(c)
  {
  }

  /** Drops the run of `p`-characters at the front of `s`. */
  function SkipRun(s: string, p: char -> bool): (r: string)
    ensures |r| <= |s| && r == s[|s| - |r|..]
    ensures r == [] || !p(r[0])
    ensures forall i :: 0 <= i < |s| - |r| ==> p(s[i])
  {
    if s == [] || !p(s[0]) then s else SkipRun(s[1..], p)
  }

  /** `s.replace(/P+/g, "-")`: each maximal run of `p`-characters becomes one `-`. */
  function ReplaceRuns(s: string, p: char -> bool): (r: string)
    ensures r == [] <==> s == []
    decreases |s|
  {
    if s == [] then []
    else if p(s[0]) then "-" + ReplaceRuns(SkipRun(s[1..], p), p)
    else [s[0]] + ReplaceRuns(s[1..], p)
  }

  /** The characters of `s` that are neither in the class nor a hyphen, in order. */
  function Kept(s: string, p: char -> bool): (r: string)
    ensures |r| <= |s|
    ensures forall i :: 0 <= i < |r| ==> !p(r[i]) && r[i] != '-'
  {
    if s == [] then []
    else if !p(s[0]) && s[0] != '-' then [s[0]] + Kept(s[1..], p)
    else Kept(s[1..], p)
  }

  predicate NoAdjacentHyphens(s: string)
  {
    forall i :: 0 <= i < |s| - 1 ==> !(s[i] == '-' && s[i + 1] == '-')
  }

  lemma {:induction false} KeptOfRun(s: string, p: char -> bool)
    ensures Kept(SkipRun(s, p), p) == Kept(s, p)
    decreases |s|
  {
    if s != [] && p(s[0]) {
      KeptOfRun(s[1..], p);
    }
  }

  /** No character of the class survives: only hyphens and other characters remain. */
  lemma {:induction false} ReplaceRunsLeavesNoClassChar(s: string, p: char -> bool)
    ensures forall i :: 0 <= i < |ReplaceRuns(s, p)| ==> ReplaceRuns(s, p)[i] == '-' || !p(ReplaceRuns(s, p)[i])
    decreases |s|
  {
    if s == [] {
    } else if p(s[0]) {
      ReplaceRunsLeavesNoClassChar(SkipRun(s[1..], p), p);
    } else {
      ReplaceRunsLeavesNoClassChar(s[1..], p);
    }
  }

  /** Every character outside the class, other than a hyphen, is kept, in order. */
  lemma {:induction false} ReplaceRunsKeepsOthers(s: string, p: char -> bool)
    ensures Kept(ReplaceRuns(s, p), p) == Kept(s, p)
    decreases |s|
  {
    if s == [] {
    } else if p(s[0]) {
      var rest := SkipRun(s[1..], p);
      ReplaceRunsKeepsOthers(rest, p);
      KeptOfRun(s[1..], p);
      assert ReplaceRuns(s, p) == "-" + ReplaceRuns(rest, p);
    } else {
      ReplaceRunsKeepsOthers(s[1..], p);
      assert ReplaceRuns(s, p) == [s[0]] + ReplaceRuns(s[1..], p);
    }
  }

  /** A string with no character of the class comes back unchanged. */
  lemma {:induction false} ReplaceRunsIdentity(s: string, p: char -> bool)
    requires forall i :: 0 <= i < |s| ==> !p(s[i])
    ensures ReplaceRuns(s, p) == s
    decreases |s|
  {
    if s != [] {
      ReplaceRunsIdentity(s[1..], p);
    }
  }

  /**
   * The first character of the result is a hyphen exactly when `s` starts
   * with a class character; a result that is not empty comes from a non-empty `s`.
   */
  lemma ReplaceRunsHead(s: string, p: char -> bool)
    ensures |ReplaceRuns(s, p)| == 0 <==> s == []
    ensures s != [] ==> (ReplaceRuns(s, p)[0] == '-' <==> p(s[0]) || s[0] == '-')
  {
  }

  /** What is left after skipping a run is a suffix, so it ends like the input. */
  lemma SkipRunEndsLikeInput(a: string, p: char -> bool)
    requires SkipRun(a, p) != []
    ensures SkipRun(a, p)[|SkipRun(a, p)| - 1] == a[|a| - 1]
  {
  }

  /**
   * The last character of the result is a hyphen exactly when `s` ends with a
   * class character or a hyphen.
   */
  lemma {:induction false} ReplaceRunsLast(s: string, p: char -> bool)
    requires s != []
    ensures var r := ReplaceRuns(s, p);
            r != [] && (r[|r| - 1] == '-' <==> p(s[|s| - 1]) || s[|s| - 1] == '-')
    decreases |s|, 1
  {
    if p(s[0]) {
      LastAfterRun(s, p);
    } else if |s| == 1 {
      assert ReplaceRuns(s, p) == [s[0]];
    } else {
      ReplaceRunsLast(s[1..], p);
      assert ReplaceRuns(s, p) == [s[0]] + ReplaceRuns(s[1..], p);
      assert s[1..][|s| - 2] == s[|s| - 1];
    }
  }

  /** `ReplaceRunsLast` when `s` starts with a class character. */
  lemma {:induction false} LastAfterRun(s: string, p: char -> bool)
    requires s != [] && p(s[0])
    ensures var r := ReplaceRuns(s, p);
            r != [] && (r[|r| - 1] == '-' <==> p(s[|s| - 1]) || s[|s| - 1] == '-')
    decreases |s|, 0
  {
    var rest := SkipRun(s[1..], p);
    assert ReplaceRuns(s, p) == "-" + ReplaceRuns(rest, p);
    if rest == [] {
      assert |s| > 1 ==> p(s[1..][|s| - 2]);
    } else {
      SkipRunEndsLikeInput(s[1..], p);
      assert s[1..][|s| - 2] == s[|s| - 1];
      ReplaceRunsLast(rest, p);
    }
  }

  /**
   * When the hyphen itself belongs to the class, every hyphen of the result
   * stands for a whole run, so no two hyphens are adjacent.
   */
  lemma {:induction false} ReplaceRunsSingleHyphens(s: string, p: char -> bool)
    requires p('-')
    ensures NoAdjacentHyphens(ReplaceRuns(s, p))
    decreases |s|
  {
    if s == [] {
    } else if p(s[0]) {
      var rest := SkipRun(s[1..], p);
      ReplaceRunsSingleHyphens(rest, p);
      ReplaceRunsHead(rest, p);
      var r := ReplaceRuns(s, p);
      assert r == "-" + ReplaceRuns(rest, p);
      assert rest != [] ==> !p(rest[0]) && rest[0] != '-';
    } else {
      ReplaceRunsSingleHyphens(s[1..], p);
      var r := ReplaceRuns(s, p);
      assert r == [s[0]] + ReplaceRuns(s[1..], p);
      assert s[0] != '-';
    }
  }

  /** With a hyphen in the class, a string of single, separated hyphens is a fixed point. */
  lemma {:induction false} ReplaceRunsFixedPoint(s: string, p: char -> bool)
    requires p('-')
    requires forall i :: 0 <= i < |s| ==> s[i] == '-' || !p(s[i])
    requires NoAdjacentHyphens(s)
    ensures ReplaceRuns(s, p) == s
    decreases |s|
  {
    if s != [] {
      var tail := s[1..];
      assert forall i :: 0 <= i < |tail| ==> tail[i] == s[i + 1];
      assert NoAdjacentHyphens(tail);
      if p(s[0]) {
        assert tail == [] || !p(tail[0]) by {
          if tail != [] {
            assert !(s[0] == '-' && s[1] == '-');
          }
        }
        assert SkipRun(tail, p) == tail;
      }
      ReplaceRunsFixedPoint(tail, p);
    }
  }

  /** Every character of the result is an inserted hyphen or a character of `s`. */
  lemma {:induction false} ReplaceRunsDrawsFrom(s: string, p: char -> bool)
    ensures forall i :: 0 <= i < |ReplaceRuns(s, p)| ==> ReplaceRuns(s, p)[i] == '-' || ReplaceRuns(s, p)[i] in s
    decreases |s|
  {
    if s == [] {
    } else if p(s[0]) {
      var rest := SkipRun(s[1..], p);
      ReplaceRunsDrawsFrom(rest, p);
      assert forall c :: c in rest ==> c in s;
    } else {
      ReplaceRunsDrawsFrom(s[1..], p);
      assert forall c :: c in s[1..] ==> c in s;
    }
  }

  /** Skipping a whole run stops exactly where the run ends. */
  lemma {:induction false} SkipRunOverRun(run: string, y: string, p: char -> bool)
    requires forall i :: 0 <= i < |run| ==> p(run[i])
    requires y == [] || !p(y[0])
    ensures SkipRun(run + y, p) == y
    decreases |run|
  {
    if run == [] {
      assert run + y == y;
    } else {
      assert (run + y)[1..] == run[1..] + y;
      SkipRunOverRun(run[1..], y, p);
    }
  }

  /** A run that ends inside `a` is skipped the same way whatever follows `a`. */
  lemma {:induction false} SkipRunAppend(a: string, b: string, p: char -> bool)
    requires SkipRun(a, p) != []
    ensures SkipRun(a + b, p) == SkipRun(a, p) + b
    decreases |a|
  {
    if !p(a[0]) {
    } else {
      assert (a + b)[1..] == a[1..] + b;
      SkipRunAppend(a[1..], b, p);
    }
  }

  /** A run that ends before the last character of `a` leaves that character in place. */
  lemma SkipRunKeepsLast(a: string, p: char -> bool)
    requires a != [] && !p(a[|a| - 1])
    ensures SkipRun(a, p) != [] && SkipRun(a, p)[|SkipRun(a, p)| - 1] == a[|a| - 1]
  {
  }

  /** A run at the front becomes one hyphen, and the rest is rewritten on its own. */
  lemma ReplaceRunsLeadingRun(run: string, y: string, p: char -> bool)
    requires |run| > 0 && forall i :: 0 <= i < |run| ==> p(run[i])
    requires y == [] || !p(y[0])
    ensures ReplaceRuns(run + y, p) == "-" + ReplaceRuns(y, p)
  {
    var s := run + y;
    assert s[0] == run[0];
    assert s[1..] == run[1..] + y;
    SkipRunOverRun(run[1..], y, p);
  }

  /**
   * Placement: a maximal run `run` of class characters, with no class character
   * right before it (end of `x`) or right after it (start of `y`), becomes exactly
   * one hyphen at its own position, and both sides are rewritten independently.
   */
  lemma {:induction false} ReplaceRunsSplit(x: string, run: string, y: string, p: char -> bool)
    requires |run| > 0 && forall i :: 0 <= i < |run| ==> p(run[i])
    requires x == [] || !p(x[|x| - 1])
    requires y == [] || !p(y[0])
    ensures ReplaceRuns(x + run + y, p) == ReplaceRuns(x, p) + "-" + ReplaceRuns(y, p)
    decreases |x|, 1
  {
    if x == [] {
      assert x + run + y == run + y;
      ReplaceRunsLeadingRun(run, y, p);
    } else if p(x[0]) {
      SplitAfterRun(x, run, y, p);
    } else {
      SplitAfterKept(x, run, y, p);
    }
  }

  lemma TailOfConcat(a: string, b: string)
    requires a != []
    ensures (a + b)[1..] == a[1..] + b
  {
  }

  lemma Assoc(a: string, b: string, c: string)
    ensures a + b + c == a + (b + c)
  {
  }

  lemma Regroup(h: string, a: string, b: string)
    ensures h + (a + "-" + b) == (h + a) + "-" + b
  {
  }

  /**
   * Unfolds `ReplaceRuns` once on `x + tail` when `x` starts with a run that
   * ends inside `x`; `rest` is what follows that run.
   */
  lemma UnfoldLeadingRun(x: string, tail: string, p: char -> bool) returns (rest: string)
    requires x != [] && p(x[0]) && !p(x[|x| - 1])
    ensures rest != [] && |rest| < |x| && !p(rest[|rest| - 1])
    ensures ReplaceRuns(x, p) == "-" + ReplaceRuns(rest, p)
    ensures ReplaceRuns(x + tail, p) == "-" + ReplaceRuns(rest + tail, p)
  {
    var s := x + tail;
    var t := x[1..];
    assert t != [] && t[|t| - 1] == x[|x| - 1];
    rest := SkipRun(t, p);
    SkipRunKeepsLast(t, p);
    assert s[0] == x[0];
    TailOfConcat(x, tail);
    SkipRunAppend(t, tail, p);
  }

  /** `ReplaceRunsSplit` when `x` starts with a run of its own. */
  lemma {:induction false} SplitAfterRun(x: string, run: string, y: string, p: char -> bool)
    requires |run| > 0 && forall i :: 0 <= i < |run| ==> p(run[i])
    requires x != [] && p(x[0]) && !p(x[|x| - 1])
    requires y == [] || !p(y[0])
    ensures ReplaceRuns(x + run + y, p) == ReplaceRuns(x, p) + "-" + ReplaceRuns(y, p)
    decreases |x|, 0
  {
    var rest := UnfoldLeadingRun(x, run + y, p);
    Assoc(x, run, y);
    Assoc(rest, run, y);
    ReplaceRunsSplit(rest, run, y, p);
    Regroup("-", ReplaceRuns(rest, p), ReplaceRuns(y, p));
  }

  /** Unfolds `ReplaceRuns` once on `x + tail` when `x` starts outside the class. */
  lemma UnfoldLeadingKept(x: string, tail: string, p: char -> bool)
    requires x != [] && !p(x[0])
    ensures ReplaceRuns(x, p) == [x[0]] + ReplaceRuns(x[1..], p)
    ensures ReplaceRuns(x + tail, p) == [x[0]] + ReplaceRuns(x[1..] + tail, p)
  {
    assert (x + tail)[0] == x[0];
    TailOfConcat(x, tail);
  }

  /** `ReplaceRunsSplit` when `x` starts with a character outside the class. */
  lemma {:induction false} SplitAfterKept(x: string, run: string, y: string, p: char -> bool)
    requires |run| > 0 && forall i :: 0 <= i < |run| ==> p(run[i])
    requires x != [] && !p(x[0]) && !p(x[|x| - 1])
    requires y == [] || !p(y[0])
    ensures ReplaceRuns(x + run + y, p) == ReplaceRuns(x, p) + "-" + ReplaceRuns(y, p)
    decreases |x|, 0
  {
    var t := x[1..];
    UnfoldLeadingKept(x, run + y, p);
    Assoc(x, run, y);
    Assoc(t, run, y);
    assert t != [] ==> t[|t| - 1] == x[|x| - 1];
    ReplaceRunsSplit(t, run, y, p);
    Regroup([x[0]], ReplaceRuns(t, p), ReplaceRuns(y, p));
  }
}
