/** The parts of Python's `str` behaviour the core relies on: `isspace`,
    regex `\w`, `lower`, `in` (substring), `strip`, `split`, `join`,
    slicing and integer-to-text conversion. */
module Strings {

  /** Python's `str.isspace` (and the regex class `\s` on `str` patterns). */
  predicate IsSpace(c: char)
  {
    c == ' ' || '\t' <= c <= '\r' || '\U{1c}' <= c <= '\U{1f}' || c == '\U{85}' || c == '\U{a0}'
    || c == '\U{1680}' || '\U{2000}' <= c <= '\U{200a}' || c == '\U{2028}' || c == '\U{2029}'
    || c == '\U{202f}' || c == '\U{205f}' || c == '\U{3000}'
  }

  /** A sentence-final mark, the class `[.!?]`. */
  predicate IsMark(c: char)
  {
    c == '.' || c == '!' || c == '?'
  }

  /** An ASCII decimal digit (`str.isdigit` restricted to ASCII). */
  predicate IsDigit(c: char)
  {
    '0' <= c <= '9'
  }

  /** The regex class `\w` on the Latin and Vietnamese range: ASCII letters,
      digits and `_`, Latin-1 letters and numbers, Latin Extended-A/B and
      Latin Extended Additional. */
  predicate IsWordChar(c: char)
  {
    IsDigit(c) || 'A' <= c <= 'Z' || 'a' <= c <= 'z' || c == '_'
    || c == '\U{aa}' || c == '\U{b2}' || c == '\U{b3}' || c == '\U{b5}' || c == '\U{b9}' || c == '\U{ba}'
    || '\U{bc}' <= c <= '\U{be}' || '\U{c0}' <= c <= '\U{d6}' || '\U{d8}' <= c <= '\U{f6}'
    || '\U{f8}' <= c <= '\U{24f}' || '\U{1e00}' <= c <= '\U{1eff}'
  }

  /** `str.lower` on one character, for ASCII, Latin-1, Latin Extended-A and
      the Vietnamese letters. */
  function LowerChar(c: char): char
  {
    if 'A' <= c <= 'Z' || ('\U{c0}' <= c <= '\U{de}' && c != '\U{d7}') then
      (c as int + 32) as char
    else if ('\U{100}' <= c <= '\U{12f}' || '\U{132}' <= c <= '\U{137}' || '\U{14a}' <= c <= '\U{177}'
             || '\U{1e00}' <= c <= '\U{1e95}' || '\U{1ea0}' <= c <= '\U{1eff}') && c as int % 2 == 0 then
      (c as int + 1) as char
    else if ('\U{139}' <= c <= '\U{148}' || '\U{179}' <= c <= '\U{17e}') && c as int % 2 == 1 then
      (c as int + 1) as char
    else if c == '\U{1a0}' || c == '\U{1af}' then
      (c as int + 1) as char
    else
      c
  }

  function Lower(s: string): (r: string)
    ensures |r| == |s|
    ensures forall i | 0 <= i < |s| :: r[i] == LowerChar(s[i])
  {
    if s == [] then [] else [LowerChar(s[0])] + Lower(s[1..])
  }

  lemma {:induction false} LowerConcat(a: string, b: string)
    ensures Lower(a + b) == Lower(a) + Lower(b)
  {
    var l, r := Lower(a + b), Lower(a) + Lower(b);
    assert |l| == |r|;
    forall i | 0 <= i < |l| ensures l[i] == r[i] {
      if i < |a| { assert (a + b)[i] == a[i]; } else { assert (a + b)[i] == b[i - |a|]; }
    }
  }

  /** `p` occurs in `s` at position `i`. */
  predicate IsAt(s: string, p: string, i: int)
  {
    0 <= i <= |s| - |p| && s[i..i + |p|] == p
  }

  /** Python's `p in s` on strings. */
  predicate Contains(s: string, p: string)
  {
    exists i | 0 <= i <= |s| - |p| :: IsAt(s, p, i)
  }

  lemma ContainsMid(a: string, b: string, c: string)
    ensures Contains(a + b + c, b)
  {
    assert (a + b + c)[|a|..|a| + |b|] == b;
    assert IsAt(a + b + c, b, |a|);
  }

  lemma ContainsTrans(s: string, a: string, b: string)
    requires Contains(s, a) && Contains(a, b)
    ensures Contains(s, b)
  {
    var i :| 0 <= i <= |s| - |a| && IsAt(s, a, i);
    var j :| 0 <= j <= |a| - |b| && IsAt(a, b, j);
    forall k | 0 <= k < |b| ensures s[i + j + k] == b[k] {
      assert b[k] == a[j..j + |b|][k] == a[j + k];
      assert a[j + k] == s[i..i + |a|][j + k];
    }
    assert s[i + j..i + j + |b|] == b;
    assert IsAt(s, b, i + j);
  }

  /** A quick way to rule out an occurrence: its first character is absent. */
  lemma NotContainsByFirst(s: string, p: string)
    requires p != [] && p[0] !in s
    ensures !Contains(s, p)
  {
    forall i | 0 <= i <= |s| - |p| ensures !IsAt(s, p, i) {
      assert s[i..i + |p|][0] == s[i];
      assert s[i] in s;
    }
  }

  lemma ContainsEmpty(s: string)
    ensures Contains(s, "")
  {
    assert IsAt(s, "", 0);
  }

  /** What `lstrip` removes: the leading whitespace. */
  function TrimStart(s: string): (r: string)
    ensures |r| <= |s| && r == s[|s| - |r|..]
    ensures forall i | 0 <= i < |s| - |r| :: IsSpace(s[i])
    ensures r == [] || !IsSpace(r[0])
  {
    if s != [] && IsSpace(s[0]) then TrimStart(s[1..]) else s
  }

  /** What `rstrip` removes: the trailing whitespace. */
  function TrimEnd(s: string): (r: string)
    ensures |r| <= |s| && r == s[..|r|]
    ensures forall i | |r| <= i < |s| :: IsSpace(s[i])
    ensures r == [] || !IsSpace(r[|r| - 1])
  {
    if s != [] && IsSpace(s[|s| - 1]) then TrimEnd(s[..|s| - 1]) else s
  }

  /** Python's `str.strip()`. */
  function Strip(s: string): (r: string)
  {
    TrimEnd(TrimStart(s))
  }

  /** `r` occurs in `s` at `i` with only whitespace around it. */
  ghost predicate SpacedAt(s: string, r: string, i: nat)
  {
    i <= |s| - |r| && IsAt(s, r, i) && (forall k | 0 <= k < i :: IsSpace(s[k]))
    && (forall k | i + |r| <= k < |s| :: IsSpace(s[k]))
  }

  lemma StripSpec(s: string)
    ensures var r := Strip(s);
      (r == [] || (!IsSpace(r[0]) && !IsSpace(r[|r| - 1])))
      && exists i: nat :: SpacedAt(s, r, i)
  {
    var t := TrimStart(s);
    var r := TrimEnd(t);
    assert r != [] ==> r[0] == t[0];
    SpacedAround(s, t, r);
  }

  /** A suffix after leading whitespace, cut before trailing whitespace,
      sits in the text with only whitespace around it. */
  lemma SpacedAround(s: string, t: string, r: string)
    requires |t| <= |s| && t == s[|s| - |t|..] && forall k | 0 <= k < |s| - |t| :: IsSpace(s[k])
    requires |r| <= |t| && r == t[..|r|] && forall k | |r| <= k < |t| :: IsSpace(t[k])
    ensures SpacedAt(s, r, |s| - |t|)
  {
    var i := |s| - |t|;
    assert s[i..i + |r|] == r;
    forall k | i + |r| <= k < |s| ensures IsSpace(s[k]) {
      assert s[k] == t[k - i];
    }
  }

  /** The longest prefix of `s` without whitespace. */
  function TakeWord(s: string): (w: string)
    ensures w <= s
    ensures forall i | 0 <= i < |w| :: !IsSpace(w[i])
    ensures |w| < |s| ==> IsSpace(s[|w|])
  {
    if s == [] || IsSpace(s[0]) then [] else [s[0]] + TakeWord(s[1..])
  }

  /** Python's `str.split()` with no separator: the maximal runs of
      non-whitespace characters, in order. */
  function Words(s: string): (ws: seq<string>)
    ensures forall j | 0 <= j < |ws| :: ws[j] != [] && forall i | 0 <= i < |ws[j]| :: !IsSpace(ws[j][i])
    decreases |s|
  {
    var t := TrimStart(s);
    if t == [] then [] else
    var w := TakeWord(t);
    var rest := Words(t[|w|..]);
    WordsCons(w, rest);
    [w] + rest
  }

  /** A word without whitespace in front of such words keeps them so. */
  lemma WordsCons(w: string, ws: seq<string>)
    requires w != [] && forall i | 0 <= i < |w| :: !IsSpace(w[i])
    requires forall j | 0 <= j < |ws| :: ws[j] != [] && forall i | 0 <= i < |ws[j]| :: !IsSpace(ws[j][i])
    ensures forall j | 0 <= j < |[w] + ws| :: ([w] + ws)[j] != [] && forall i | 0 <= i < |([w] + ws)[j]| :: !IsSpace(([w] + ws)[j][i])
  {
    forall j | 0 <= j < |[w] + ws|
      ensures ([w] + ws)[j] != [] && forall i | 0 <= i < |([w] + ws)[j]| :: !IsSpace(([w] + ws)[j][i])
    {
      if j > 0 {
        assert ([w] + ws)[j] == ws[j - 1];
      }
    }
  }

  /** Python's `str.split(sep)` for a one-character separator. */
  function SplitOn(s: string, sep: char): (parts: seq<string>)
    ensures |parts| == Count(s, sep) + 1
    ensures forall j | 0 <= j < |parts| :: sep !in parts[j]
    decreases |s|
  {
    if sep !in s then CountAbsent(s, sep); [s]
    else
      var i := IndexOf(s, sep);
      [s[..i]] + SplitOn(s[i + 1..], sep)
  }

  function Count(s: string, c: char): nat
  {
    if s == [] then 0 else (if s[0] == c then 1 else 0) + Count(s[1..], c)
  }

  lemma {:induction false} CountConcat(a: string, b: string, c: char)
    ensures Count(a + b, c) == Count(a, c) + Count(b, c)
  {
    if a == [] {
      assert a + b == b;
    } else {
      assert (a + b)[1..] == a[1..] + b;
      CountConcat(a[1..], b, c);
    }
  }

  lemma {:induction false} CountAbsent(s: string, c: char)
    requires c !in s
    ensures Count(s, c) == 0
  {
    if s != [] { CountAbsent(s[1..], c); }
  }

  /** The first position of `c` in `s` (`str.index`). */
  function IndexOf(s: string, c: char): (i: nat)
    requires c in s
    ensures i < |s| && s[i] == c && c !in s[..i]
    ensures Count(s, c) == 1 + Count(s[i + 1..], c)
  {
    if s[0] == c then
      assert s[..0] == [];
      assert s[1..] == s[0 + 1..];
      0
    else
      var j := IndexOf(s[1..], c);
      assert s[..j + 1] == [s[0]] + s[1..][..j];
      assert s[j + 1 + 1..] == s[1..][j + 1..];
      j + 1
  }

  lemma SplitStep(a: string, sep: char, b: string)
    requires sep !in a
    ensures SplitOn(a + [sep] + b, sep) == [a] + SplitOn(b, sep)
  {
    var s := a + [sep] + b;
    assert s[|a|] == sep;
    var i := IndexOf(s, sep);
    assert forall k | 0 <= k < |a| :: s[k] == a[k] != sep;
    assert forall k | 0 <= k < i :: s[k] == s[..i][k] != sep;
    assert s[..i] == a;
    assert s[i + 1..] == b;
  }

  lemma SplitLast(a: string, sep: char)
    requires sep !in a
    ensures SplitOn(a, sep) == [a]
  {
  }

  /** Appending a separator and a separator-free part appends that part to
      the split. */
  lemma {:induction false} SplitAppend(x: string, sep: char, b: string)
    requires sep !in b
    ensures SplitOn(x + [sep] + b, sep) == SplitOn(x, sep) + [b]
    decreases |x|
  {
    if sep !in x {
      SplitStep(x, sep, b);
    } else {
      var i := IndexOf(x, sep);
      var head, rest := x[..i], x[i + 1..];
      assert x == head + [sep] + rest;
      assert x + [sep] + b == head + [sep] + (rest + [sep] + b);
      SplitAppend(rest, sep, b);
      SplitAppendStep(head, rest, sep, b);
    }
  }

  lemma SplitAppendStep(head: string, rest: string, sep: char, b: string)
    requires sep !in head
    requires SplitOn(rest + [sep] + b, sep) == SplitOn(rest, sep) + [b]
    ensures SplitOn(head + [sep] + (rest + [sep] + b), sep) == SplitOn(head + [sep] + rest, sep) + [b]
  {
    SplitStep(head, sep, rest + [sep] + b);
    SplitStep(head, sep, rest);
    ConcatAssoc([head], SplitOn(rest, sep), [b]);
  }

  /** `sep.join(parts)`. */
  function Join(parts: seq<string>, sep: string): string
  {
    if parts == [] then "" else if |parts| == 1 then parts[0] else parts[0] + sep + Join(parts[1..], sep)
  }

  /** Python's `s[:n]` for a non-negative `n`, on a string or a list. */
  function Take<T>(s: seq<T>, n: nat): (r: seq<T>)
    ensures |r| == if n < |s| then n else |s|
    ensures r <= s
  {
    if n < |s| then s[..n] else s
  }

  /** A joined string contains each of its parts. */
  lemma {:induction false} JoinContains(parts: seq<string>, sep: string, k: nat)
    requires k < |parts|
    ensures Contains(Join(parts, sep), parts[k])
  {
    if |parts| == 1 {
      ContainsMid([], parts[0], []);
      assert [] + parts[0] + [] == parts[0];
    } else {
      var rest := Join(parts[1..], sep);
      if k == 0 {
        ContainsMid([], parts[0], sep + rest);
        assert [] + parts[0] + (sep + rest) == parts[0] + sep + rest;
      } else {
        JoinContains(parts[1..], sep, k - 1);
        ContainsMid(parts[0] + sep, rest, []);
        assert parts[0] + sep + rest + [] == parts[0] + sep + rest;
        ContainsTrans(Join(parts, sep), rest, parts[k]);
      }
    }
  }

  lemma ConcatAssoc<T>(a: seq<T>, b: seq<T>, c: seq<T>)
    ensures (a + b) + c == a + (b + c)
  {
  }

  function DigitChar(d: nat): char
    requires d < 10
  {
    ('0' as int + d) as char
  }

  /** Python's `str(n)` for a natural number. */
  function NatToString(n: nat): (r: string)
    ensures r != [] && forall i | 0 <= i < |r| :: IsDigit(r[i])
    ensures |r| > 1 ==> r[0] != '0'
  {
    if n < 10 then [DigitChar(n)] else NatToString(n / 10) + [DigitChar(n % 10)]
  }

  function DigitValue(c: char): nat
    requires IsDigit(c)
  {
    c as int - '0' as int
  }

  function DigitsValue(s: string): nat
    requires forall i | 0 <= i < |s| :: IsDigit(s[i])
  {
    if s == [] then 0 else 10 * DigitsValue(s[..|s| - 1]) + DigitValue(s[|s| - 1])
  }

  lemma {:induction false} NatToStringInverse(n: nat)
    ensures DigitsValue(NatToString(n)) == n
  {
    if n >= 10 {
      var r := NatToString(n);
      assert r[..|r| - 1] == NatToString(n / 10);
      NatToStringInverse(n / 10);
    }
  }

  /** Decimal rendering is injective, so numbers rendered into identifiers stay distinct. */
  lemma NatToStringInjective(a: nat, b: nat)
    requires NatToString(a) == NatToString(b)
    ensures a == b
  {
    NatToStringInverse(a);
    NatToStringInverse(b);
  }
}
