/** The regex rewrites shared by the query normaliser and the document
    processor: `re.sub(r'\s+', ' ', s)`, `re.sub(r'([.!?])\s*([.!?]+)', r'\1', s)`,
    `str.replace` and whole-word `re.sub(r'\b' + re.escape(k) + r'\b', v, s)`,
    with the shape each leaves the text in. */
module Normalization {
  import opened Strings

  /** Whitespace is only `' '` and never two in a row. */
  ghost predicate Collapsed(s: string)
  {
    (forall i | 0 <= i < |s| :: IsSpace(s[i]) ==> s[i] == ' ')
    && (forall i, j | 0 <= i < j < |s| && j == i + 1 :: !(IsSpace(s[i]) && IsSpace(s[j])))
  }

  /** Collapsed, and no whitespace at either end. */
  ghost predicate SingleSpaced(s: string)
  {
    Collapsed(s) && (s == [] || (!IsSpace(s[0]) && !IsSpace(s[|s| - 1])))
  }

  /** No terminal mark is directly followed by another one. */
  ghost predicate NoAdjacentMarks(s: string)
  {
    forall i, j | 0 <= i < j < |s| && j == i + 1 :: !(IsMark(s[i]) && IsMark(s[j]))
  }

  /** A replacement text that cannot disturb either shape where it is spliced in. */
  ghost predicate Solid(v: string)
  {
    v != [] && !IsSpace(v[0]) && !IsSpace(v[|v| - 1]) && !IsMark(v[0]) && !IsMark(v[|v| - 1])
    && Collapsed(v) && NoAdjacentMarks(v)
  }

  lemma CollapsedCons(c: char, x: string)
    requires Collapsed(x)
    requires IsSpace(c) ==> c == ' ' && (x == [] || !IsSpace(x[0]))
    ensures Collapsed([c] + x)
  {
    var s := [c] + x;
    forall i | 1 <= i < |s| ensures s[i] == x[i - 1] { }
  }

  lemma CollapsedConcat(a: string, b: string)
    requires Collapsed(a) && Collapsed(b)
    requires a != [] && b != [] ==> !(IsSpace(a[|a| - 1]) && IsSpace(b[0]))
    ensures Collapsed(a + b)
  {
    var s := a + b;
    forall i | |a| <= i < |s| ensures s[i] == b[i - |a|] { }
  }

  lemma MarksCons(c: char, x: string)
    requires NoAdjacentMarks(x)
    requires IsMark(c) ==> x == [] || !IsMark(x[0])
    ensures NoAdjacentMarks([c] + x)
  {
    var s := [c] + x;
    forall i | 1 <= i < |s| ensures s[i] == x[i - 1] { }
  }

  lemma MarksConcat(a: string, b: string)
    requires NoAdjacentMarks(a) && NoAdjacentMarks(b)
    requires a != [] && b != [] ==> !(IsMark(a[|a| - 1]) && IsMark(b[0]))
    ensures NoAdjacentMarks(a + b)
  {
    var s := a + b;
    forall i | |a| <= i < |s| ensures s[i] == b[i - |a|] { }
  }

  /** A letter of the Latin and Vietnamese alphabets: never whitespace, never a mark. */
  predicate Letter(c: char)
  {
    'A' <= c <= 'Z' || 'a' <= c <= 'z' || '\U{c0}' <= c <= '\U{24f}' || '\U{1e00}' <= c <= '\U{1eff}'
  }

  /** A word of letters and hyphens, checkable on a literal. */
  predicate PlainWord(w: string)
  {
    w == [] || ((Letter(w[0]) || w[0] == '-') && PlainWord(w[1..]))
  }

  lemma {:induction false} PlainWordAt(w: string, i: nat)
    requires PlainWord(w) && i < |w|
    ensures Letter(w[i]) || w[i] == '-'
  {
    if i > 0 { PlainWordAt(w[1..], i - 1); }
  }

  lemma WordSolid(w: string)
    requires w != [] && PlainWord(w) && Letter(w[0]) && Letter(w[|w| - 1])
    ensures Solid(w)
  {
    forall i | 0 <= i < |w| ensures Letter(w[i]) || w[i] == '-' { PlainWordAt(w, i); }
  }

  /** Two solid texts joined by one space are solid. */
  lemma SolidJoin(a: string, b: string)
    requires Solid(a) && Solid(b)
    ensures Solid(a + " " + b)
  {
    CollapsedConcat(a, " ");
    CollapsedConcat(a + " ", b);
    MarksConcat(a, " ");
    MarksConcat(a + " ", b);
  }

  lemma SliceKeepsShape(s: string, i: nat, j: nat)
    requires i <= j <= |s|
    ensures Collapsed(s) ==> Collapsed(s[i..j])
    ensures NoAdjacentMarks(s) ==> NoAdjacentMarks(s[i..j])
  {
    var t := s[i..j];
    forall k | 0 <= k < |t| ensures t[k] == s[i + k] { }
  }

  lemma SuffixKeepsShape(s: string, t: string)
    requires |t| <= |s| && t == s[|s| - |t|..]
    ensures Collapsed(s) ==> Collapsed(t)
    ensures NoAdjacentMarks(s) ==> NoAdjacentMarks(t)
  {
    forall k | 0 <= k < |t| ensures t[k] == s[|s| - |t| + k] { }
  }

  /** Stripping collapsed text leaves it single-spaced. */
  lemma StripSingleSpaced(s: string)
    requires Collapsed(s)
    ensures SingleSpaced(Strip(s))
  {
    SuffixKeepsShape(s, TrimStart(s));
    TrimEndSingleSpaced(TrimStart(s));
  }

  lemma TrimEndSingleSpaced(t: string)
    requires Collapsed(t) && (t == [] || !IsSpace(t[0]))
    ensures SingleSpaced(TrimEnd(t))
  {
    var r := TrimEnd(t);
    SliceKeepsShape(t, 0, |r|);
    assert r == t[0..|r|];
    assert r != [] ==> r[0] == t[0];
  }

  /** `re.sub(r'\s+', ' ', s)`: every whitespace run becomes one space. */
  function CollapseSpaces(s: string): (r: string)
    ensures |r| <= |s|
    ensures s == [] <==> r == []
    ensures s != [] ==> r[0] == (if IsSpace(s[0]) then ' ' else s[0])
    ensures s != [] ==> (IsSpace(r[|r| - 1]) <==> IsSpace(s[|s| - 1]))
    decreases |s|
  {
    if s == [] then []
    else if IsSpace(s[0]) then
      var t := TrimStart(s[1..]);
      SuffixLast(s[1..], t);
      [' '] + CollapseSpaces(t)
    else
      [s[0]] + CollapseSpaces(s[1..])
  }

  /** Collapsing leaves no whitespace but `' '` and never two in a row. */
  lemma {:induction false} CollapseSpacesCollapsed(s: string)
    ensures Collapsed(CollapseSpaces(s))
    decreases |s|
  {
    if s == [] {
    } else if IsSpace(s[0]) {
      var t := TrimStart(s[1..]);
      CollapseSpacesCollapsed(t);
      CollapsedCons(' ', CollapseSpaces(t));
    } else {
      CollapseSpacesCollapsed(s[1..]);
      CollapsedCons(s[0], CollapseSpaces(s[1..]));
    }
  }

  lemma SuffixLast(s: string, t: string)
    requires |t| <= |s| && t == s[|s| - |t|..]
    ensures t != [] ==> t[|t| - 1] == s[|s| - 1]
  {
  }

  /** `s` with its whitespace removed: what collapsing must not change. */
  function NonSpaces(s: string): string
  {
    if s == [] then [] else (if IsSpace(s[0]) then [] else [s[0]]) + NonSpaces(s[1..])
  }

  lemma {:induction false} NonSpacesTrimStart(s: string)
    ensures NonSpaces(TrimStart(s)) == NonSpaces(s)
  {
    if s != [] && IsSpace(s[0]) { NonSpacesTrimStart(s[1..]); }
  }

  lemma {:induction false} CollapseKeepsText(s: string)
    ensures NonSpaces(CollapseSpaces(s)) == NonSpaces(s)
    decreases |s|
  {
    if s == [] {
    } else if IsSpace(s[0]) {
      var t := TrimStart(s[1..]);
      CollapseKeepsText(t);
      NonSpacesTrimStart(s[1..]);
      assert ([' '] + CollapseSpaces(t))[1..] == CollapseSpaces(t);
    } else {
      CollapseKeepsText(s[1..]);
      assert ([s[0]] + CollapseSpaces(s[1..]))[1..] == CollapseSpaces(s[1..]);
    }
  }

  /** Removes a leading run of terminal marks. */
  function DropMarks(s: string): (r: string)
    ensures |r| <= |s| && r == s[|s| - |r|..]
    ensures r == [] || !IsMark(r[0])
  {
    if s != [] && IsMark(s[0]) then DropMarks(s[1..]) else s
  }

  /** After optional whitespace, `s` continues with a terminal mark. */
  predicate MarkAfterSpaces(s: string)
  {
    var t := TrimStart(s);
    t != [] && IsMark(t[0])
  }

  /** What follows a mark once the whitespace and the run of marks after it
      are consumed: a proper suffix. */
  function AfterMarkRun(s: string): (t: string)
    requires s != []
    ensures |t| < |s| && t == s[|s| - |t|..]
  {
    var u := TrimStart(s[1..]);
    assert u == s[|s| - |u|..];
    var t := DropMarks(u);
    assert t == u[|u| - |t|..];
    assert u[|u| - |t|..] == s[|s| - |t|..];
    t
  }

  /** `re.sub(r'([.!?])\s*([.!?]+)', r'\1', s)`: a terminal mark followed,
      after optional whitespace, by a run of terminal marks keeps only the
      first mark; the scan resumes after the run. */
  function DedupMarks(s: string): (r: string)
    ensures |r| <= |s|
    ensures s == [] <==> r == []
    ensures s != [] ==> r[0] == s[0]
    ensures s != [] && !IsSpace(s[|s| - 1]) ==> !IsSpace(r[|r| - 1])
    decreases |s|
  {
    if s == [] then []
    else
      var t := Resume(s);
      SuffixLast(s, t);
      LastOfCons(s[0], DedupMarks(t));
      [s[0]] + DedupMarks(t)
  }

  /** Where the scan resumes after the character at the front of `s`: past
      the following run of marks when `s` starts with a mark followed by
      one, otherwise at the next character. */
  function Resume(s: string): (t: string)
    requires s != []
    ensures |t| < |s| && t == s[|s| - |t|..]
    ensures t == [] ==> IsMark(s[0]) || |s| == 1
  {
    if IsMark(s[0]) && MarkAfterSpaces(s[1..]) then AfterMarkRun(s) else s[1..]
  }

  lemma LastOfCons(c: char, d: string)
    ensures ([c] + d)[|d|] == if d == [] then c else d[|d| - 1]
  {
  }

  /** Deduplication leaves no terminal mark directly after another. */
  lemma {:induction false} DedupMarksNoAdjacent(s: string)
    ensures NoAdjacentMarks(DedupMarks(s))
    decreases |s|
  {
    if s == [] {
    } else if IsMark(s[0]) && MarkAfterSpaces(s[1..]) {
      var t := AfterMarkRun(s);
      DedupMarksNoAdjacent(t);
      MarksCons(s[0], DedupMarks(t));
    } else {
      var t := s[1..];
      DedupMarksNoAdjacent(t);
      if IsMark(s[0]) && t != [] {
        assert !IsMark(t[0]) by {
          assert !MarkAfterSpaces(t);
          if !IsSpace(t[0]) { assert TrimStart(t) == t; }
        }
      }
      MarksCons(s[0], DedupMarks(t));
    }
  }

  /** Deduplication keeps collapsed text collapsed. */
  lemma {:induction false} DedupMarksCollapsed(s: string)
    requires Collapsed(s)
    ensures Collapsed(DedupMarks(s))
    decreases |s|
  {
    if s == [] {
    } else if IsMark(s[0]) && MarkAfterSpaces(s[1..]) {
      var t := AfterMarkRun(s);
      SuffixKeepsShape(s, t);
      DedupMarksCollapsed(t);
      CollapsedCons(s[0], DedupMarks(t));
    } else {
      var t := s[1..];
      SliceKeepsShape(s, 1, |s|);
      DedupMarksCollapsed(t);
      if IsSpace(s[0]) && t != [] {
        assert s[1] == t[0];
      }
      CollapsedCons(s[0], DedupMarks(t));
    }
  }

  /** The boundaries `\b` on both sides of an occurrence of `k` at the start of
      `s`, given whether the character before `s` is a word character. */
  predicate WholeWordAt(s: string, k: string, prevWord: bool)
    requires k != [] && k <= s
  {
    prevWord != IsWordChar(k[0])
    && IsWordChar(k[|k| - 1]) != (|k| < |s| && IsWordChar(s[|k|]))
  }

  /** Left-to-right, non-overlapping replacement of `k` by `v`. With `whole`
      set, only occurrences delimited by `\b` on both sides are replaced, as
      `re.sub(r'\b' + re.escape(k) + r'\b', v, s)` does, and `prevWord` says
      whether the character before `s` is a word character; without it this
      is `s.replace(k, v)`. */
  function Replace(s: string, k: string, v: string, whole: bool, prevWord: bool): (r: string)
    requires k != []
    decreases |s|
  {
    if |s| < |k| then s
    else if k <= s && (!whole || WholeWordAt(s, k, prevWord)) then
      v + Replace(s[|k|..], k, v, whole, IsWordChar(k[|k| - 1]))
    else
      [s[0]] + Replace(s[1..], k, v, whole, IsWordChar(s[0]))
  }

  /** `s.replace(k, v)`. */
  function ReplaceAll(s: string, k: string, v: string): string
    requires k != []
  {
    Replace(s, k, v, false, false)
  }

  /** `re.sub(r'\b' + re.escape(k) + r'\b', v, s)`. */
  function ReplaceWord(s: string, k: string, v: string): string
    requires k != []
  {
    Replace(s, k, v, true, false)
  }

  /** Reducing mark runs keeps a single-spaced text single-spaced. */
  lemma DedupMarksSingleSpaced(s: string)
    requires SingleSpaced(s)
    ensures SingleSpaced(DedupMarks(s)) && NoAdjacentMarks(DedupMarks(s))
  {
    DedupMarksCollapsed(s);
    DedupMarksNoAdjacent(s);
  }

  /** Splicing in a non-empty replacement keeps the text non-empty, and
      each end of the result is an end of the text or of the replacement. */
  lemma {:induction false} ReplaceEnds(s: string, k: string, v: string, whole: bool, prevWord: bool)
    requires k != [] && v != []
    ensures var r := Replace(s, k, v, whole, prevWord);
      (s == [] <==> r == [])
      && (s != [] ==> (r[0] == s[0] || r[0] == v[0]) && (r[|r| - 1] == s[|s| - 1] || r[|r| - 1] == v[|v| - 1]))
    decreases |s|
  {
    if |s| >= |k| {
      if k <= s && (!whole || WholeWordAt(s, k, prevWord)) {
        var t := s[|k|..];
        var rt := Replace(t, k, v, whole, IsWordChar(k[|k| - 1]));
        assert Replace(s, k, v, whole, prevWord) == v + rt;
        ReplaceEnds(t, k, v, whole, IsWordChar(k[|k| - 1]));
        SuffixLast(s, t);
      } else {
        var rt := Replace(s[1..], k, v, whole, IsWordChar(s[0]));
        assert Replace(s, k, v, whole, prevWord) == [s[0]] + rt;
        ReplaceEnds(s[1..], k, v, whole, IsWordChar(s[0]));
        SuffixLast(s, s[1..]);
      }
    }
  }

  /** Splicing in a solid replacement keeps the text collapsed. */
  lemma {:induction false} ReplaceCollapsed(s: string, k: string, v: string, whole: bool, prevWord: bool)
    requires k != [] && Solid(v) && Collapsed(s)
    ensures Collapsed(Replace(s, k, v, whole, prevWord))
    decreases |s|
  {
    if |s| >= |k| {
      if k <= s && (!whole || WholeWordAt(s, k, prevWord)) {
        var t := s[|k|..];
        SliceKeepsShape(s, |k|, |s|);
        ReplaceCollapsed(t, k, v, whole, IsWordChar(k[|k| - 1]));
        CollapsedConcat(v, Replace(t, k, v, whole, IsWordChar(k[|k| - 1])));
      } else {
        var t := s[1..];
        SliceKeepsShape(s, 1, |s|);
        ReplaceCollapsed(t, k, v, whole, IsWordChar(s[0]));
        ReplaceEnds(t, k, v, whole, IsWordChar(s[0]));
        CollapsedCons(s[0], Replace(t, k, v, whole, IsWordChar(s[0])));
      }
    }
  }

  /** Splicing in a solid replacement creates no adjacent marks. */
  lemma {:induction false} ReplaceNoAdjacentMarks(s: string, k: string, v: string, whole: bool, prevWord: bool)
    requires k != [] && Solid(v) && NoAdjacentMarks(s)
    ensures NoAdjacentMarks(Replace(s, k, v, whole, prevWord))
    decreases |s|
  {
    if |s| >= |k| {
      if k <= s && (!whole || WholeWordAt(s, k, prevWord)) {
        var t := s[|k|..];
        SliceKeepsShape(s, |k|, |s|);
        ReplaceNoAdjacentMarks(t, k, v, whole, IsWordChar(k[|k| - 1]));
        MarksConcat(v, Replace(t, k, v, whole, IsWordChar(k[|k| - 1])));
      } else {
        var t := s[1..];
        SliceKeepsShape(s, 1, |s|);
        ReplaceNoAdjacentMarks(t, k, v, whole, IsWordChar(s[0]));
        ReplaceEnds(t, k, v, whole, IsWordChar(s[0]));
        MarksCons(s[0], Replace(t, k, v, whole, IsWordChar(s[0])));
      }
    }
  }

  lemma SingleSpacedReplace(s: string, k: string, v: string, whole: bool, prevWord: bool)
    requires k != [] && Solid(v) && SingleSpaced(s)
    ensures SingleSpaced(Replace(s, k, v, whole, prevWord))
  {
    ReplaceEnds(s, k, v, whole, prevWord);
    ReplaceCollapsed(s, k, v, whole, prevWord);
  }

  /** Text without `k` is left as it is. */
  lemma {:induction false} ReplaceAbsent(s: string, k: string, v: string, whole: bool, prevWord: bool)
    requires k != [] && !Contains(s, k)
    ensures Replace(s, k, v, whole, prevWord) == s
    decreases |s|
  {
    if |s| >= |k| {
      assert !IsAt(s, k, 0);
      assert s[0..|k|] == s[..|k|];
      assert !Contains(s[1..], k) by {
        forall i | 0 <= i <= |s[1..]| - |k| ensures !IsAt(s[1..], k, i) {
          assert s[1..][i..i + |k|] == s[i + 1..i + 1 + |k|];
          assert !IsAt(s, k, i + 1);
        }
      }
      ReplaceAbsent(s[1..], k, v, whole, IsWordChar(s[0]));
    }
  }

  /** An occurrence that is followed by a word character is not a whole word
      and stays: `TT` inside `TTX` is not expanded. */
  lemma WordFollowedIsKept(s: string, k: string, v: string, prevWord: bool)
    requires k != [] && k <= s && |k| < |s| && IsWordChar(k[|k| - 1]) && IsWordChar(s[|k|])
    ensures Replace(s, k, v, true, prevWord) == [s[0]] + Replace(s[1..], k, v, true, IsWordChar(s[0]))
  {
  }
}
