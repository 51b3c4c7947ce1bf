/** The Vietnamese text normaliser and query preprocessor: whitespace and
    punctuation canonicalisation, legal-term and abbreviation rewriting,
    stop-word filtering of tokens, legal-term extraction and the rule-based
    reading of a query's intent and constraints. */
module TextProcessing {
  import opened Wrappers
  import opened Strings
  import opened Normalization
  import opened Rules

  /** Lower/upper-case code names and their capitalised form, in the order
      `_normalize_legal_terms` applies them. */
  const LegalTermRewrites: seq<(string, string)> := [
    ("Bộ luật dân sự", "Bộ luật Dân sự"), ("bộ luật dân sự", "Bộ luật Dân sự"),
    ("Bộ luật hình sự", "Bộ luật Hình sự"), ("bộ luật hình sự", "Bộ luật Hình sự"),
    ("Bộ luật lao động", "Bộ luật Lao động"), ("bộ luật lao động", "Bộ luật Lao động")
  ]

  /** Legal abbreviations and their expansion, in dictionary order. */
  const Abbreviations: seq<(string, string)> := [
    ("NĐ-CP", "Nghị định của Chính phủ"), ("TT", "Thông tư"), ("QĐ", "Quyết định"),
    ("CV", "Công văn"), ("TB", "Thông báo"), ("BLHS", "Bộ luật Hình sự"),
    ("BLDS", "Bộ luật Dân sự"), ("BLLD", "Bộ luật Lao động")
  ]

  /** The legal-term dictionary, in its declared order. */
  const LegalTerms: seq<string> := [
    "Bộ luật Dân sự", "Bộ luật Hình sự", "Bộ luật Lao động",
    "Hiến pháp", "Luật Thương mại", "Luật Hành chính",
    "hợp đồng", "tài sản", "quyền sở hữu", "nghĩa vụ",
    "vi phạm", "trách nhiệm", "bồi thường", "tội phạm",
    "hình phạt", "an toàn lao động", "bảo hiểm xã hội",
    "thủ tục hành chính", "cấp phép", "đăng ký kinh doanh"
  ]

  const Stopwords: set<string> := {
    "là", "của", "và", "có", "được", "trong", "với", "cho",
    "về", "từ", "theo", "như", "để", "khi", "nếu", "mà",
    "các", "những", "này", "đó", "thì", "sẽ", "đã", "đang"
  }

  const ProcedureKeywords: seq<string> := [
    "thủ tục", "quy trình", "trình tự", "hồ sơ",
    "đăng ký", "cấp phép", "xin phép", "khai báo"
  ]

  /** Every key of a rewrite table is non-empty. */
  predicate KeysNonEmpty(table: seq<(string, string)>)
  {
    forall i | 0 <= i < |table| :: table[i].0 != []
  }

  /** Every replacement of a rewrite table is solid. */
  ghost predicate ValuesSolid(table: seq<(string, string)>)
  {
    forall i | 0 <= i < |table| :: Solid(table[i].1)
  }

  /** The entries of `table` applied to `s` one after another, in order, as
      plain replacements or (with `whole`) as whole-word replacements. */
  function ApplyTable(table: seq<(string, string)>, s: string, whole: bool): string
    requires KeysNonEmpty(table)
  {
    if table == [] then s
    else
      var last := table[|table| - 1];
      Replace(ApplyTable(table[..|table| - 1], s, whole), last.0, last.1, whole, false)
  }

  lemma {:induction false} ApplyTableKeepsShape(table: seq<(string, string)>, s: string, whole: bool)
    requires KeysNonEmpty(table) && ValuesSolid(table)
    ensures SingleSpaced(s) ==> SingleSpaced(ApplyTable(table, s, whole))
    ensures NoAdjacentMarks(s) ==> NoAdjacentMarks(ApplyTable(table, s, whole))
  {
    if table != [] {
      var init := table[..|table| - 1];
      var last := table[|table| - 1];
      ApplyTableKeepsShape(init, s, whole);
      var t := ApplyTable(init, s, whole);
      if SingleSpaced(s) { SingleSpacedReplace(t, last.0, last.1, whole, false); }
      if NoAdjacentMarks(s) { ReplaceNoAdjacentMarks(t, last.0, last.1, whole, false); }
    }
  }

  /** Solidity of a two-word name from its words. The name is a parameter so
      that the literal is related to its words by one equation. */
  lemma SolidWords(x: string, a: string, b: string)
    requires x == a + " " + b
    requires a != [] && b != [] && PlainWord(a) && PlainWord(b)
    requires Letter(a[0]) && Letter(a[|a| - 1]) && Letter(b[0]) && Letter(b[|b| - 1])
    ensures Solid(x)
  {
    WordSolid(a);
    WordSolid(b);
    SolidJoin(a, b);
  }

  lemma SolidJoined(x: string, a: string, b: string)
    requires x == a + " " + b && Solid(a) && Solid(b)
    ensures Solid(x)
  {
    SolidJoin(a, b);
  }

  lemma StatuteSolid() ensures Solid("Bộ luật")
  {
    SolidWords("Bộ luật", "Bộ", "luật");
  }

  lemma CivilCodeSolid() ensures Solid("Bộ luật Dân sự")
  {
    StatuteSolid();
    CivilSolid();
    SolidJoined("Bộ luật Dân sự", "Bộ luật", "Dân sự");
  }

  lemma CivilSolid() ensures Solid("Dân sự")
  {
    SolidWords("Dân sự", "Dân", "sự");
  }

  lemma CriminalCodeSolid() ensures Solid("Bộ luật Hình sự")
  {
    StatuteSolid();
    CriminalSolid();
    SolidJoined("Bộ luật Hình sự", "Bộ luật", "Hình sự");
  }

  lemma CriminalSolid() ensures Solid("Hình sự")
  {
    SolidWords("Hình sự", "Hình", "sự");
  }

  lemma LaborCodeSolid() ensures Solid("Bộ luật Lao động")
  {
    StatuteSolid();
    LaborSolid();
    SolidJoined("Bộ luật Lao động", "Bộ luật", "Lao động");
  }

  lemma LaborSolid() ensures Solid("Lao động")
  {
    SolidWords("Lao động", "Lao", "động");
  }

  lemma DecreeSolid() ensures Solid("Nghị định của Chính phủ")
  {
    DecreeOfSolid();
    GovernmentSolid();
    SolidJoined("Nghị định của Chính phủ", "Nghị định của", "Chính phủ");
  }

  lemma DecreeOfSolid() ensures Solid("Nghị định của")
  {
    DecreeWordSolid();
    WordSolid("của");
    SolidJoined("Nghị định của", "Nghị định", "của");
  }

  lemma DecreeWordSolid() ensures Solid("Nghị định")
  {
    SolidWords("Nghị định", "Nghị", "định");
  }

  lemma GovernmentSolid() ensures Solid("Chính phủ")
  {
    SolidWords("Chính phủ", "Chính", "phủ");
  }

  lemma CircularSolid() ensures Solid("Thông tư")
  {
    SolidWords("Thông tư", "Thông", "tư");
  }

  lemma DecisionSolid() ensures Solid("Quyết định")
  {
    SolidWords("Quyết định", "Quyết", "định");
  }

  lemma OfficialLetterSolid() ensures Solid("Công văn")
  {
    SolidWords("Công văn", "Công", "văn");
  }

  lemma NoticeSolid() ensures Solid("Thông báo")
  {
    SolidWords("Thông báo", "Thông", "báo");
  }

  lemma TableKeysNonEmpty()
    ensures KeysNonEmpty(LegalTermRewrites) && KeysNonEmpty(Abbreviations)
  {
  }

  lemma TablesWellFormed()
    ensures KeysNonEmpty(LegalTermRewrites) && ValuesSolid(LegalTermRewrites)
    ensures KeysNonEmpty(Abbreviations) && ValuesSolid(Abbreviations)
  {
    CivilCodeSolid();
    CriminalCodeSolid();
    LaborCodeSolid();
    DecreeSolid();
    CircularSolid();
    DecisionSolid();
    OfficialLetterSolid();
    NoticeSolid();
  }

  /** `_normalize_legal_terms`: each code name replaced, in dictionary order. */
  method NormalizeLegalTerms(text: string) returns (r: string)
    ensures r == ApplyTable(LegalTermRewrites, text, false)
    ensures SingleSpaced(text) ==> SingleSpaced(r)
    ensures NoAdjacentMarks(text) ==> NoAdjacentMarks(r)
  {
    TablesWellFormed();
    r := text;
    var i := 0;
    while i < |LegalTermRewrites|
      invariant 0 <= i <= |LegalTermRewrites|
      invariant r == ApplyTable(LegalTermRewrites[..i], text, false)
    {
      var (old_, new_) := LegalTermRewrites[i];
      assert LegalTermRewrites[..i + 1][..i] == LegalTermRewrites[..i];
      r := ReplaceAll(r, old_, new_);
      i := i + 1;
    }
    assert LegalTermRewrites[..i] == LegalTermRewrites;
    ApplyTableKeepsShape(LegalTermRewrites, text, false);
  }

  /** `_expand_abbreviations`: each abbreviation expanded where it stands as a
      whole word, in dictionary order. */
  method ExpandAbbreviations(text: string) returns (r: string)
    ensures r == ApplyTable(Abbreviations, text, true)
    ensures SingleSpaced(text) ==> SingleSpaced(r)
    ensures NoAdjacentMarks(text) ==> NoAdjacentMarks(r)
  {
    TablesWellFormed();
    r := text;
    var i := 0;
    while i < |Abbreviations|
      invariant 0 <= i <= |Abbreviations|
      invariant r == ApplyTable(Abbreviations[..i], text, true)
    {
      var (abbrev, fullForm) := Abbreviations[i];
      assert Abbreviations[..i + 1][..i] == Abbreviations[..i];
      r := ReplaceWord(r, abbrev, fullForm);
      i := i + 1;
    }
    assert Abbreviations[..i] == Abbreviations;
    ApplyTableKeepsShape(Abbreviations, text, true);
  }

  /** The normalisation pipeline as one expression. */
  function Normalized(text: string): string
  {
    TableKeysNonEmpty();
    ApplyTable(Abbreviations, ApplyTable(LegalTermRewrites, DedupMarks(Strip(CollapseSpaces(text))), false), true)
  }

  /** `normalize_vietnamese_text`: the text, with its whitespace runs made
      single spaces, stripped, its repeated terminal marks reduced, and its
      legal terms and abbreviations rewritten, ends up single-spaced with no
      terminal mark directly after another. */
  method NormalizeVietnameseText(text: string) returns (r: string)
    ensures r == Normalized(text)
    ensures SingleSpaced(r) && NoAdjacentMarks(r)
  {
    r := CollapseSpaces(text);
    CollapseSpacesCollapsed(text);
    StripSingleSpaced(r);
    r := Strip(r);
    DedupMarksSingleSpaced(r);
    r := DedupMarks(r);
    r := NormalizeLegalTerms(r);
    r := ExpandAbbreviations(r);
  }

  // ---------------------------------------------------------------- tokens

  /** Removes the leading characters that satisfy `drop`. */
  function DropStart(s: string, drop: char -> bool): (r: string)
    ensures |r| <= |s| && r == s[|s| - |r|..]
    ensures forall i | 0 <= i < |s| - |r| :: drop(s[i])
    ensures r == [] || !drop(r[0])
  {
    if s != [] && drop(s[0]) then DropStart(s[1..], drop) else s
  }

  /** Removes the trailing characters that satisfy `drop`. */
  function DropEnd(s: string, drop: char -> bool): (r: string)
    ensures |r| <= |s| && r == s[..|r|]
    ensures forall i | |r| <= i < |s| :: drop(s[i])
    ensures r == [] || !drop(r[|r| - 1])
  {
    if s != [] && drop(s[|s| - 1]) then DropEnd(s[..|s| - 1], drop) else s
  }

  /** `^[^\w]+`: removes a leading run of non-word characters. */
  function DropNonWordStart(s: string): (r: string)
    ensures |r| <= |s| && r == s[|s| - |r|..]
    ensures forall i | 0 <= i < |s| - |r| :: !IsWordChar(s[i])
    ensures r == [] || IsWordChar(r[0])
  {
    DropStart(s, c => !IsWordChar(c))
  }

  /** `[^\w]+$`: removes a trailing run of non-word characters. */
  function DropNonWordEnd(s: string): (r: string)
    ensures |r| <= |s| && r == s[..|r|]
    ensures forall i | |r| <= i < |s| :: !IsWordChar(s[i])
    ensures r == [] || IsWordChar(r[|r| - 1])
  {
    DropEnd(s, c => !IsWordChar(c))
  }

  /** `_clean_token`: the token without non-word characters at its ends, or
      `""` when fewer than two characters remain. */
  function CleanToken(token: string): string
  {
    var t := DropNonWordEnd(DropNonWordStart(token));
    if |t| < 2 then "" else t
  }

  lemma CleanTokenEnds(token: string)
    ensures var r := CleanToken(token); r == [] || (|r| >= 2 && IsWordChar(r[0]) && IsWordChar(r[|r| - 1]))
  {
  }

  /** A non-empty cleaned token is the token's core: at least two characters,
      word characters at both ends, and only non-word characters cut away. */
  lemma CleanTokenShape(token: string)
    ensures var r := CleanToken(token);
      r == [] || (|r| >= 2 && IsWordChar(r[0]) && IsWordChar(r[|r| - 1])
        && exists i | 0 <= i <= |token| - |r| :: IsAt(token, r, i)
             && (forall k | 0 <= k < i :: !IsWordChar(token[k]))
             && (forall k | i + |r| <= k < |token| :: !IsWordChar(token[k])))
  {
    var u := DropNonWordStart(token);
    var t := DropNonWordEnd(u);
    if |t| >= 2 {
      var i := |token| - |u|;
      assert token[i..i + |t|] == u[..|t|] == t;
      forall k | i + |t| <= k < |token| ensures !IsWordChar(token[k]) {
        assert token[k] == u[k - i];
      }
      assert IsAt(token, t, i);
    }
  }

  /** Conversely, a token made of a word-bounded core between non-word runs
      cleans to that core, or to `""` when the core is a single character. */
  lemma {:induction false} CleanTokenOfCore(a: string, w: string, b: string)
    requires w != [] && IsWordChar(w[0]) && IsWordChar(w[|w| - 1])
    requires forall k | 0 <= k < |a| :: !IsWordChar(a[k])
    requires forall k | 0 <= k < |b| :: !IsWordChar(b[k])
    ensures CleanToken(a + w + b) == if |w| < 2 then "" else w
  {
    DropStartOfCore(a, w + b);
    assert a + w + b == a + (w + b);
    DropEndOfCore(w, b);
  }

  lemma {:induction false} DropStartOfCore(a: string, x: string)
    requires x != [] && IsWordChar(x[0])
    requires forall k | 0 <= k < |a| :: !IsWordChar(a[k])
    ensures DropNonWordStart(a + x) == x
  {
    if a == [] {
      assert a + x == x;
    } else {
      assert (a + x)[1..] == a[1..] + x;
      DropStartOfCore(a[1..], x);
    }
  }

  lemma {:induction false} DropEndOfCore(x: string, b: string)
    requires x != [] && IsWordChar(x[|x| - 1])
    requires forall k | 0 <= k < |b| :: !IsWordChar(b[k])
    ensures DropNonWordEnd(x + b) == x
  {
    if b == [] {
      assert x + b == x;
    } else {
      assert (x + b)[..|x + b| - 1] == x + b[..|b| - 1];
      DropEndOfCore(x, b[..|b| - 1]);
    }
  }

  /** A kept token: at least two characters, word characters at both ends,
      and not a stop word once lower-cased. */
  predicate Kept(t: string, stop: set<string>)
  {
    |t| >= 2 && IsWordChar(t[0]) && IsWordChar(t[|t| - 1]) && Lower(t) !in stop
  }

  /** The cleaned words that survive the filter against the stop words
      `stop`, in order. */
  function KeptTokens(words: seq<string>, stop: set<string>): (r: seq<string>)
    ensures forall j | 0 <= j < |r| :: Kept(r[j], stop)
    ensures |r| <= |words|
  {
    if words == [] then []
    else
      var init := KeptTokens(words[..|words| - 1], stop);
      var t := CleanToken(words[|words| - 1]);
      if t != "" && Lower(t) !in stop then
        CleanTokenEnds(words[|words| - 1]);
        assert Kept(t, stop);
        KeptSnoc(init, t, stop);
        init + [t]
      else init
  }

  lemma KeptSnoc(s: seq<string>, t: string, stop: set<string>)
    requires forall j | 0 <= j < |s| :: Kept(s[j], stop)
    requires Kept(t, stop)
    ensures forall j | 0 <= j < |s + [t]| :: Kept((s + [t])[j], stop)
  {
  }

  /** The token loop of `tokenize_vietnamese` over already split words. */
  method FilterTokens(words: seq<string>, stop: set<string>) returns (tokens: seq<string>)
    ensures tokens == KeptTokens(words, stop)
  {
    tokens := [];
    var i := 0;
    while i < |words|
      invariant 0 <= i <= |words|
      invariant tokens == KeptTokens(words[..i], stop)
    {
      assert words[..i + 1][..i] == words[..i];
      var cleaned := CleanToken(words[i]);
      if cleaned != "" && Lower(cleaned) !in stop {
        tokens := tokens + [cleaned];
      }
      i := i + 1;
    }
    assert words[..i] == words;
  }

  /** `tokenize_vietnamese`: the whitespace-separated words, cleaned, without
      empty results and stop words. */
  method Tokenize(text: string) returns (tokens: seq<string>)
    ensures tokens == KeptTokens(Words(text), Stopwords)
  {
    tokens := FilterTokens(Words(text), Stopwords);
  }

  // ----------------------------------------------------------- legal terms

  /** The dictionary terms whose lower-case form occurs in `textLower`, in
      dictionary order. */
  function FoundTerms(terms: seq<string>, textLower: string): (r: seq<string>)
    ensures forall x :: x in r <==> x in terms && Contains(textLower, Lower(x))
  {
    if terms == [] then []
    else
      var last := terms[|terms| - 1];
      FoundTerms(terms[..|terms| - 1], textLower)
        + (if Contains(textLower, Lower(last)) then [last] else [])
  }

  predicate NoDuplicates<T(==)>(s: seq<T>)
  {
    forall i, j | 0 <= i < j < |s| :: s[i] != s[j]
  }

  /** The elements of `s` at their first occurrence, in order. */
  function Dedup(s: seq<string>): (r: seq<string>)
    ensures NoDuplicates(r)
    ensures forall x :: x in r <==> x in s
  {
    if s == [] then []
    else
      var init := s[..|s| - 1];
      var last := s[|s| - 1];
      assert forall x :: x in s <==> x in init || x == last;
      if last in init then Dedup(init) else Dedup(init) + [last]
  }

  /** The elements of `s` that are not in `seen`, in order. */
  function Without(s: seq<string>, seen: set<string>): (r: seq<string>)
    ensures forall x :: x in r <==> x in s && x !in seen
  {
    if s == [] then []
    else
      var init := s[..|s| - 1];
      var last := s[|s| - 1];
      assert forall x :: x in s <==> x in init || x == last;
      Without(init, seen) + (if last in seen then [] else [last])
  }

  /** De-duplicating a concatenation keeps the first part's survivors first
      and adds only the second part's elements that the first lacks. */
  lemma {:induction false} DedupConcat(a: seq<string>, b: seq<string>)
    ensures Dedup(a + b) == Dedup(a) + Without(Dedup(b), set x | x in a)
  {
    if b == [] {
      assert a + b == a;
    } else {
      var b0 := b[..|b| - 1];
      var x := b[|b| - 1];
      assert b == b0 + [x];
      assert a + b == (a + b0) + [x];
      DedupConcat(a, b0);
      DedupConcatStep(a, b0, x, set y | y in a);
    }
  }

  /** One step of `DedupConcat`: appending `x` to the second part. */
  lemma DedupConcatStep(a: seq<string>, b0: seq<string>, x: string, seen: set<string>)
    requires x in seen <==> x in a
    requires Dedup(a + b0) == Dedup(a) + Without(Dedup(b0), seen)
    ensures Dedup((a + b0) + [x]) == Dedup(a) + Without(Dedup(b0 + [x]), seen)
  {
    DedupSnoc(a + b0, x);
    DedupSnoc(b0, x);
    if x !in b0 {
      var tail := Without(Dedup(b0), seen);
      WithoutSnoc(Dedup(b0), x, seen);
      ConcatAssoc(Dedup(a), tail, if x in seen then [] else [x]);
    }
  }

  lemma DedupSnoc(s: seq<string>, x: string)
    ensures Dedup(s + [x]) == if x in s then Dedup(s) else Dedup(s) + [x]
  {
    assert (s + [x])[..|s|] == s;
  }

  lemma WithoutSnoc(s: seq<string>, x: string, seen: set<string>)
    ensures Without(s + [x], seen) == Without(s, seen) + (if x in seen then [] else [x])
  {
    assert (s + [x])[..|s|] == s;
  }

  lemma {:induction false} DedupDistinct(s: seq<string>)
    requires NoDuplicates(s)
    ensures Dedup(s) == s
  {
    if s != [] {
      var init := s[..|s| - 1];
      assert NoDuplicates(init);
      DedupDistinct(init);
      assert s[|s| - 1] !in init by {
        forall k | 0 <= k < |init| ensures init[k] != s[|s| - 1] { assert init[k] == s[k]; }
      }
      assert init + [s[|s| - 1]] == s;
    }
  }

  /** The dictionary loop of `extract_legal_terms`. */
  method FindTerms(terms: seq<string>, textLower: string) returns (found: seq<string>)
    ensures found == FoundTerms(terms, textLower)
  {
    found := [];
    var i := 0;
    while i < |terms|
      invariant 0 <= i <= |terms|
      invariant found == FoundTerms(terms[..i], textLower)
    {
      assert terms[..i + 1][..i] == terms[..i];
      var term := terms[i];
      if Contains(textLower, Lower(term)) {
        found := found + [term];
      }
      i := i + 1;
    }
    assert terms[..i] == terms;
  }

  /** The de-duplication loop of `extract_legal_terms`: a `seen` set and the
      list of first occurrences. */
  method Unique(s: seq<string>) returns (r: seq<string>)
    ensures r == Dedup(s)
  {
    var seen: set<string> := {};
    r := [];
    var j := 0;
    while j < |s|
      invariant 0 <= j <= |s|
      invariant r == Dedup(s[..j])
      invariant seen == set x | x in s[..j]
    {
      var term := s[j];
      assert s[..j + 1][..j] == s[..j];
      assert s[..j + 1][j] == term;
      assert forall x :: x in s[..j + 1] <==> x in s[..j] || x == term;
      if term !in seen {
        seen := seen + {term};
        r := r + [term];
      }
      j := j + 1;
    }
    assert s[..j] == s;
  }

  /** `extract_legal_terms`: the dictionary terms occurring case-insensitively
      in the text, then the references the regex scanners found, without
      duplicates and at their first occurrence. `references` stands for what
      `_extract_legal_references` returns for the text. */
  method ExtractLegalTerms(text: string, references: seq<string>) returns (r: seq<string>)
    ensures r == Dedup(FoundTerms(LegalTerms, Lower(text)) + references)
    ensures r == Dedup(FoundTerms(LegalTerms, Lower(text)))
      + Without(Dedup(references), set x | x in FoundTerms(LegalTerms, Lower(text)))
    ensures NoDuplicates(r)
    ensures forall x :: x in r <==> (x in LegalTerms && Contains(Lower(text), Lower(x))) || x in references
  {
    var found := FindTerms(LegalTerms, Lower(text));
    r := Unique(found + references);
    DedupConcat(found, references);
  }

  // -------------------------------------------------------------- entities

  /** An entity dictionary: its `type` and its other keys. */
  datatype Entity = Entity(kind: string, fields: map<string, string>)

  /** One `(Luật|Bộ luật)\s+([^,.\n]+)` match: the whole match and its groups. */
  datatype LawMatch = LawMatch(whole: string, lawType: string, lawName: string)

  /** One monetary-amount match: the whole match, the amount and the currency. */
  datatype AmountMatch = AmountMatch(whole: string, amount: string, currency: string)

  /** What the regex scanners find in a text: the legal references, the law
      references, the monetary amounts and the dates, each in match order. */
  datatype Scans = Scans(references: seq<string>, laws: seq<LawMatch>,
                         amounts: seq<AmountMatch>, dates: seq<string>)

  function DocumentEntity(m: LawMatch): Entity
  {
    Entity("legal_document", map["subtype" := "law", "value" := m.whole,
                                 "law_type" := m.lawType, "law_name" := m.lawName])
  }

  function AmountEntity(m: AmountMatch): Entity
  {
    Entity("monetary_amount", map["value" := m.whole, "amount" := m.amount, "currency" := m.currency])
  }

  /** A date entity; `_normalize_date` returns its argument. */
  function DateEntity(whole: string): Entity
  {
    Entity("date", map["value" := whole, "normalized_date" := whole])
  }

  /** A procedure entity: it records the keyword and an empty context, and
      has no `value` key. */
  function ProcedureEntity(keyword: string): Entity
  {
    Entity("legal_procedure", map["keyword" := keyword, "context" := ""])
  }

  /** The keywords that occur in `textLower`, in order. */
  function Occurring(keywords: seq<string>, textLower: string): (r: seq<string>)
    ensures forall x :: x in r <==> x in keywords && Contains(textLower, x)
  {
    if keywords == [] then []
    else
      var last := keywords[|keywords| - 1];
      Occurring(keywords[..|keywords| - 1], textLower)
        + (if Contains(textLower, last) then [last] else [])
  }

  function ProcedureEntities(keywords: seq<string>): seq<Entity>
  {
    seq(|keywords|, i requires 0 <= i < |keywords| => ProcedureEntity(keywords[i]))
  }

  /** The keyword loop of `_extract_procedures`. */
  method FindProcedures(keywords: seq<string>, textLower: string) returns (entities: seq<Entity>)
    ensures entities == ProcedureEntities(Occurring(keywords, textLower))
  {
    entities := [];
    var i := 0;
    while i < |keywords|
      invariant 0 <= i <= |keywords|
      invariant entities == ProcedureEntities(Occurring(keywords[..i], textLower))
    {
      assert keywords[..i + 1][..i] == keywords[..i];
      var keyword := keywords[i];
      if Contains(textLower, keyword) {
        entities := entities + [ProcedureEntity(keyword)];
      }
      i := i + 1;
    }
    assert keywords[..i] == keywords;
  }

  /** `_extract_procedures`: one procedure entity per procedure keyword that
      occurs in the lower-cased text, in keyword order. */
  method ExtractProcedures(text: string) returns (entities: seq<Entity>)
    ensures entities == ProcedureEntities(Occurring(ProcedureKeywords, Lower(text)))
  {
    entities := FindProcedures(ProcedureKeywords, Lower(text));
  }

  /** `extract_legal_entities`: documents, amounts, dates, names (none) and
      procedures, in that order. */
  function LegalEntities(text: string, scans: Scans): seq<Entity>
  {
    seq(|scans.laws|, i requires 0 <= i < |scans.laws| => DocumentEntity(scans.laws[i]))
    + seq(|scans.amounts|, i requires 0 <= i < |scans.amounts| => AmountEntity(scans.amounts[i]))
    + seq(|scans.dates|, i requires 0 <= i < |scans.dates| => DateEntity(scans.dates[i]))
    + ProcedureEntities(Occurring(ProcedureKeywords, Lower(text)))
  }

  /** The entity list is the scanners' matches followed by the procedures:
      every entity has one of the four kinds and every entity but a
      procedure carries a `value`. */
  lemma LegalEntitiesShape(text: string, scans: Scans)
    ensures var es := LegalEntities(text, scans);
      |es| == |scans.laws| + |scans.amounts| + |scans.dates|
              + |Occurring(ProcedureKeywords, Lower(text))|
      && (forall i | 0 <= i < |es| ::
            es[i].kind in {"legal_document", "monetary_amount", "date", "legal_procedure"})
      && (forall i | 0 <= i < |es| :: es[i].kind != "legal_procedure" ==> "value" in es[i].fields)
      && (forall i | 0 <= i < |es| :: es[i].kind == "legal_procedure" <==>
            i >= |scans.laws| + |scans.amounts| + |scans.dates|)
  {
  }

  /** `extract_legal_entities` over the scanners' output for the text. */
  method ExtractLegalEntities(text: string, scans: Scans) returns (entities: seq<Entity>)
    ensures entities == LegalEntities(text, scans)
  {
    var procedures := ExtractProcedures(text);
    entities := seq(|scans.laws|, i requires 0 <= i < |scans.laws| => DocumentEntity(scans.laws[i]))
      + seq(|scans.amounts|, i requires 0 <= i < |scans.amounts| => AmountEntity(scans.amounts[i]))
      + seq(|scans.dates|, i requires 0 <= i < |scans.dates| => DateEntity(scans.dates[i]))
      + [] + procedures;
  }

  // -------------------------------------------------------------- analysis

  /** `VietnameseTextAnalysis` without its language confidence. */
  datatype Analysis = Analysis(original: string, normalized: string, tokens: seq<string>,
                               legalTerms: seq<string>, entities: seq<Entity>)

  /** `process_legal_text`: normalise, then tokenize, extract terms and
      entities from the normalised text. `scanner` stands for the regex
      scanners applied to the normalised text. */
  method ProcessLegalText(text: string, scanner: string -> Scans) returns (a: Analysis)
    ensures a.original == text && a.normalized == Normalized(text)
    ensures SingleSpaced(a.normalized) && NoAdjacentMarks(a.normalized)
    ensures a.tokens == KeptTokens(Words(a.normalized), Stopwords)
    ensures a.legalTerms == Dedup(FoundTerms(LegalTerms, Lower(a.normalized)) + scanner(a.normalized).references)
    ensures a.entities == LegalEntities(a.normalized, scanner(a.normalized))
  {
    var normalized := NormalizeVietnameseText(text);
    var tokens := Tokenize(normalized);
    var scans := scanner(normalized);
    var terms := ExtractLegalTerms(normalized, scans.references);
    var entities := ExtractLegalEntities(normalized, scans);
    a := Analysis(text, normalized, tokens, terms, entities);
  }

  // ---------------------------------------------------------------- intent

  const DefaultIntent := "information_inquiry"

  /** The intent rules of `_extract_query_intent`, in the order tried. */
  const IntentRules: seq<Rule<string>> := [
    Rule("procedure_inquiry", ["cách", "làm thế nào", "thủ tục"]),
    Rule("rights_inquiry", ["có được", "có thể", "quyền"]),
    Rule("obligation_inquiry", ["phải", "bắt buộc", "nghĩa vụ"]),
    Rule("violation_inquiry", ["vi phạm", "sai", "lỗi"])
  ]

  /** `_extract_query_intent`: the first rule with a keyword in the
      lower-cased query, else `information_inquiry`. */
  function QueryIntent(query: string): (r: string)
    ensures Selects(IntentRules, [Lower(query)], DefaultIntent, r)
  {
    FirstMatch(IntentRules, [Lower(query)], DefaultIntent)
  }

  /** `thủ tục` makes a procedure inquiry, whatever else the query says. */
  lemma ProcedureIntentWins(query: string)
    requires Contains(Lower(query), "thủ tục")
    ensures QueryIntent(query) == "procedure_inquiry"
  {
    HitsBy(Lower(query), IntentRules[0].keywords, 2);
    FirstMatchAt(IntentRules, [Lower(query)], DefaultIntent, 0);
  }

  /** `quyền` makes a rights inquiry when no procedure keyword occurs. */
  lemma RightsIntent(query: string)
    requires !Hits([Lower(query)], IntentRules[0].keywords)
    requires Contains(Lower(query), "quyền")
    ensures QueryIntent(query) == "rights_inquiry"
  {
    HitsBy(Lower(query), IntentRules[1].keywords, 2);
    FirstMatchAt(IntentRules, [Lower(query)], DefaultIntent, 1);
  }

  /** A query without any rule keyword is an information inquiry, and the
      intent is that default only then. */
  lemma DefaultIntentIff(query: string)
    ensures QueryIntent(query) == DefaultIntent <==>
      forall i | 0 <= i < |IntentRules| :: !Hits([Lower(query)], IntentRules[i].keywords)
  {
    var k := FirstHit(IntentRules, [Lower(query)]);
    if k < |IntentRules| {
      assert IntentRules[k].outcome != DefaultIntent;
    }
  }

  // ------------------------------------------------------- search keywords

  /** The tokens longer than three characters, in order. */
  function LongTokens(tokens: seq<string>): (r: seq<string>)
    ensures forall x :: x in r <==> x in tokens && |x| > 3
  {
    if tokens == [] then []
    else
      var last := tokens[|tokens| - 1];
      LongTokens(tokens[..|tokens| - 1]) + (if |last| > 3 then [last] else [])
  }

  /** `tokens[:10]`. */
  function AtMostTen(tokens: seq<string>): (r: seq<string>)
    ensures |r| <= 10 && |r| <= |tokens| && r == tokens[..|r|]
    ensures |tokens| >= 10 ==> |r| == 10
  {
    if |tokens| <= 10 then tokens else tokens[..10]
  }

  /** The entity kinds whose values become search keywords. */
  predicate Searchable(e: Entity)
  {
    e.kind == "legal_document" || e.kind == "legal_procedure"
  }

  /** The entity loop of `_generate_search_keywords` as written: it reads
      `entity['value']` of every searchable entity, and a missing key raises
      `KeyError`. */
  function EntityValuesAsWritten(entities: seq<Entity>): (r: Result<seq<string>, string>)
    ensures r.Err? <==> exists i | 0 <= i < |entities| ::
      Searchable(entities[i]) && "value" !in entities[i].fields
  {
    if entities == [] then Ok([])
    else
      var e := entities[0];
      assert forall i | 1 <= i < |entities| :: entities[i] == entities[1..][i - 1];
      if Searchable(e) && "value" !in e.fields then Err("KeyError: 'value'")
      else
        var rest := EntityValuesAsWritten(entities[1..]);
        if rest.Err? then rest
        else Ok((if Searchable(e) then [e.fields["value"]] else []) + rest.value)
  }

  /** `_generate_search_keywords` as written: legal terms, at most ten long
      tokens and the entity values, without duplicates (the order of
      `list(set(...))` is unspecified; `Dedup` stands for one such order). */
  /** The keywords hold exactly the strings of the three sources. */
  ghost predicate Covers(keywords: seq<string>, terms: seq<string>, tokens: seq<string>, values: seq<string>)
  {
    forall x :: x in keywords <==> x in terms || x in tokens || x in values
  }

  lemma ValuesCovered(keywords: seq<string>, terms: seq<string>, tokens: seq<string>, values: seq<string>)
    requires Covers(keywords, terms, tokens, values)
    ensures forall x :: x in values ==> x in keywords
  {
  }

  function SearchKeywordsAsWritten(a: Analysis): (r: Result<seq<string>, string>)
    ensures r.Err? <==> EntityValuesAsWritten(a.entities).Err?
    ensures r.Ok? ==> NoDuplicates(r.value)
    ensures r.Ok? ==> Covers(r.value, a.legalTerms, AtMostTen(LongTokens(a.tokens)),
                             EntityValuesAsWritten(a.entities).value)
  {
    var values := EntityValuesAsWritten(a.entities);
    if values.Err? then Err(values.error)
    else
      var all := a.legalTerms + AtMostTen(LongTokens(a.tokens)) + values.value;
      assert forall x :: x in all <==>
        x in a.legalTerms || x in AtMostTen(LongTokens(a.tokens)) || x in values.value;
      assert Covers(Dedup(all), a.legalTerms, AtMostTen(LongTokens(a.tokens)), values.value);
      Ok(Dedup(all))
  }

  /** A procedure entity makes the keyword generation as written fail: every
      query whose text holds a procedure keyword loses its analysis. */
  lemma ProcedureEntityBreaksKeywords(a: Analysis, i: nat, keyword: string)
    requires i < |a.entities| && a.entities[i] == ProcedureEntity(keyword)
    ensures SearchKeywordsAsWritten(a).Err?
  {
    assert "value" !in a.entities[i].fields;
  }

  /** On the entities of a text, the keyword step as written fails exactly
      when some procedure keyword occurs in the text. */
  lemma KeywordsFailIff(text: string, scans: Scans)
    ensures EntityValuesAsWritten(LegalEntities(text, scans)).Err?
      <==> Occurring(ProcedureKeywords, Lower(text)) != []
  {
    var es := LegalEntities(text, scans);
    LegalEntitiesShape(text, scans);
    var n := |scans.laws| + |scans.amounts| + |scans.dates|;
    var found := Occurring(ProcedureKeywords, Lower(text));
    if found != [] {
      assert es[n] == ProcedureEntity(found[0]);
      assert "value" !in es[n].fields;
    } else {
      assert |es| == n;
    }
  }

  /** The intended search term of an entity: its `value`, or for a
      procedure, which has none, its `keyword`. */
  function EntityTerm(e: Entity): Option<string>
  {
    if !Searchable(e) then None
    else if "value" in e.fields then Some(e.fields["value"])
    else if "keyword" in e.fields then Some(e.fields["keyword"])
    else None
  }

  /** The terms `term` gives the entities, in order. */
  function Terms(entities: seq<Entity>, term: Entity -> Option<string>): (r: seq<string>)
    ensures forall x :: x in r <==> exists i | 0 <= i < |entities| :: term(entities[i]) == Some(x)
  {
    if entities == [] then []
    else
      var init := entities[..|entities| - 1];
      var t := term(entities[|entities| - 1]);
      assert forall i | 0 <= i < |init| :: init[i] == entities[i];
      Terms(init, term) + (if t.Some? then [t.value] else [])
  }

  /** The intended search terms of the entities, in order. */
  function EntityTerms(entities: seq<Entity>): seq<string>
  {
    Terms(entities, EntityTerm)
  }

  /** The entity loop of `_generate_search_keywords`: each term appended. */
  method AppendTerms(keywords: seq<string>, entities: seq<Entity>, term: Entity -> Option<string>)
    returns (r: seq<string>)
    ensures r == keywords + Terms(entities, term)
  {
    r := keywords;
    var i := 0;
    while i < |entities|
      invariant 0 <= i <= |entities|
      invariant r == keywords + Terms(entities[..i], term)
    {
      assert entities[..i + 1][..i] == entities[..i];
      var t := term(entities[i]);
      if t.Some? {
        r := r + [t.value];
      }
      i := i + 1;
    }
    assert entities[..i] == entities;
  }

  /** `_generate_search_keywords` with procedure entities contributing their
      keyword: legal terms, at most ten long tokens and the entity terms,
      without duplicates. */
  method GenerateSearchKeywords(a: Analysis) returns (r: seq<string>)
    ensures NoDuplicates(r)
    ensures Covers(r, a.legalTerms, AtMostTen(LongTokens(a.tokens)), EntityTerms(a.entities))
  {
    var keywords := AppendTerms(a.legalTerms + AtMostTen(LongTokens(a.tokens)), a.entities, EntityTerm);
    r := Unique(keywords);
    assert forall x :: x in keywords <==>
      x in a.legalTerms || x in AtMostTen(LongTokens(a.tokens)) || x in EntityTerms(a.entities);
  }

  /** With the intended keywords, a procedure keyword of the query is a
      search keyword. */
  lemma ProcedureKeywordSearched(a: Analysis, i: nat, keyword: string)
    requires i < |a.entities| && a.entities[i] == ProcedureEntity(keyword)
    ensures keyword in EntityTerms(a.entities)
  {
    assert "value" !in a.entities[i].fields;
    assert EntityTerm(a.entities[i]) == Some(keyword);
  }

  /** With the intended keywords, every procedure keyword occurring in the
      text is the term of one of the text's entities. */
  lemma ProcedureKeywordsSearched(text: string, scans: Scans, a: Analysis)
    requires a.entities == LegalEntities(text, scans)
    ensures forall k :: k in Occurring(ProcedureKeywords, Lower(text)) ==> k in EntityTerms(a.entities)
  {
    var found := Occurring(ProcedureKeywords, Lower(text));
    var n := |scans.laws| + |scans.amounts| + |scans.dates|;
    forall k | k in found ensures k in EntityTerms(a.entities) {
      var j :| 0 <= j < |found| && found[j] == k;
      ProcedureEntityAt(text, scans, j);
      ProcedureKeywordSearched(a, n + j, k);
    }
  }

  /** The procedure entities come after the scanners' matches. */
  lemma ProcedureEntityAt(text: string, scans: Scans, j: nat)
    requires j < |Occurring(ProcedureKeywords, Lower(text))|
    ensures var n := |scans.laws| + |scans.amounts| + |scans.dates|;
      n + j < |LegalEntities(text, scans)|
      && LegalEntities(text, scans)[n + j] == ProcedureEntity(Occurring(ProcedureKeywords, Lower(text))[j])
  {
    var found := Occurring(ProcedureKeywords, Lower(text));
    var prefix := seq(|scans.laws|, i requires 0 <= i < |scans.laws| => DocumentEntity(scans.laws[i]))
      + seq(|scans.amounts|, i requires 0 <= i < |scans.amounts| => AmountEntity(scans.amounts[i]))
      + seq(|scans.dates|, i requires 0 <= i < |scans.dates| => DateEntity(scans.dates[i]));
    assert LegalEntities(text, scans) == prefix + ProcedureEntities(found);
    assert ProcedureEntities(found)[j] == ProcedureEntity(found[j]);
  }

  // ----------------------------------------------------------- constraints

  /** The entities of one kind, in order. */
  function OfKind(entities: seq<Entity>, kind: string): (r: seq<Entity>)
    ensures forall e :: e in r <==> e in entities && e.kind == kind
    ensures |r| <= |entities|
  {
    if entities == [] then []
    else
      var last := entities[|entities| - 1];
      OfKind(entities[..|entities| - 1], kind) + (if last.kind == kind then [last] else [])
  }

  /** The constraints dictionary: each key present or absent. */
  datatype Constraints = Constraints(dateRange: Option<seq<Entity>>,
                                     amountRange: Option<seq<Entity>>,
                                     legalDomain: Option<string>)

  /** The domain keywords of `_extract_query_constraints`, in declared order. */
  const DomainRules: seq<Rule<string>> := [
    Rule("dan_su", ["dân sự"]), Rule("hinh_su", ["hình sự"]),
    Rule("lao_dong", ["lao động"]), Rule("thuong_mai", ["thương mại"])
  ]

  /** The domain loop: one keyword per rule, stopping at the first hit. */
  method FindDomain(rules: seq<Rule<string>>, textLower: string) returns (d: Option<string>)
    requires forall i | 0 <= i < |rules| :: |rules[i].keywords| == 1
    ensures d == FirstOutcome(rules, textLower)
  {
    d := None;
    var i := 0;
    while i < |rules|
      invariant 0 <= i <= |rules|
      invariant forall j | 0 <= j < i :: !Hits([textLower], rules[j].keywords)
      invariant FirstHit(rules, [textLower]) >= i
    {
      var keyword := rules[i].keywords[0];
      if Contains(textLower, keyword) {
        HitsBy(textLower, rules[i].keywords, 0);
        d := Some(rules[i].outcome);
        return;
      }
      assert !Hits([textLower], rules[i].keywords) by {
        assert [textLower][0] == textLower;
      }
      i := i + 1;
    }
  }

  /** The constraints of `_extract_query_constraints`: the date and amount
      entities when there are any, and the domain of the first domain
      keyword in the lower-cased normalised text. */
  function QueryConstraints(entities: seq<Entity>, normalized: string): (c: Constraints)
    ensures c.dateRange.Some? <==> exists e :: e in entities && e.kind == "date"
    ensures c.dateRange.Some? ==> c.dateRange.value == OfKind(entities, "date")
    ensures c.amountRange.Some? <==> exists e :: e in entities && e.kind == "monetary_amount"
    ensures c.amountRange.Some? ==> c.amountRange.value == OfKind(entities, "monetary_amount")
    ensures c.legalDomain == FirstOutcome(DomainRules, Lower(normalized))
  {
    var dates := OfKind(entities, "date");
    var amounts := OfKind(entities, "monetary_amount");
    assert dates != [] ==> dates[0] in dates;
    assert amounts != [] ==> amounts[0] in amounts;
    Constraints(if dates == [] then None else Some(dates), if amounts == [] then None else Some(amounts),
                FirstOutcome(DomainRules, Lower(normalized)))
  }

  /** `_extract_query_constraints` on an analysis. */
  method ExtractQueryConstraints(a: Analysis) returns (c: Constraints)
    ensures c == QueryConstraints(a.entities, a.normalized)
  {
    var dates := OfKind(a.entities, "date");
    var amounts := OfKind(a.entities, "monetary_amount");
    var domain := FindDomain(DomainRules, Lower(a.normalized));
    c := Constraints(if dates == [] then None else Some(dates),
                     if amounts == [] then None else Some(amounts),
                     domain);
  }

  /** The domain constraint follows the declared order: `dân sự` wins over
      any later keyword. */
  lemma CivilDomainFirst(text: string)
    requires Contains(Lower(text), "dân sự")
    ensures FirstOutcome(DomainRules, Lower(text)) == Some("dan_su")
  {
    HitsBy(Lower(text), DomainRules[0].keywords, 0);
  }

  // -------------------------------------------------------- preprocessing

  /** The dictionary `preprocess_query` returns, without its language
      confidence. */
  datatype Preprocessed = Preprocessed(original: string, normalized: string, intent: string,
                                       searchKeywords: seq<string>, legalTerms: seq<string>,
                                       entities: seq<Entity>, constraints: Constraints)

  /** The fallback of `preprocess_query`'s `except` branch. */
  function Fallback(query: string): (r: Preprocessed)
    ensures r.intent == "unknown" && r.normalized == query && r.searchKeywords == Words(query)
    ensures r.legalTerms == [] && r.entities == [] && r.constraints == Constraints(None, None, None)
  {
    Preprocessed(query, query, "unknown", Words(query), [], [], Constraints(None, None, None))
  }

  /** `preprocess_query` as written: the keyword step raises `KeyError` on
      a procedure entity, so a query whose normalised text holds a procedure
      keyword gets the fallback. */
  method PreprocessQuery(query: string, scanner: string -> Scans) returns (r: Preprocessed)
    ensures Occurring(ProcedureKeywords, Lower(Normalized(query))) != [] ==> r == Fallback(query)
    ensures Occurring(ProcedureKeywords, Lower(Normalized(query))) == [] ==>
      r.original == query && r.intent == QueryIntent(query) && r.normalized == Normalized(query)
      && r.legalTerms == Dedup(FoundTerms(LegalTerms, Lower(r.normalized)) + scanner(r.normalized).references)
      && r.entities == LegalEntities(r.normalized, scanner(r.normalized))
      && r.constraints == QueryConstraints(r.entities, r.normalized)
      && EntityValuesAsWritten(r.entities).Ok?
      && NoDuplicates(r.searchKeywords)
      && Covers(r.searchKeywords, r.legalTerms, AtMostTen(LongTokens(KeptTokens(Words(r.normalized), Stopwords))),
                EntityValuesAsWritten(r.entities).value)
  {
    var analysis := ProcessLegalText(query, scanner);
    KeywordsFailIff(analysis.normalized, scanner(analysis.normalized));
    var intent := QueryIntent(query);
    var keywords := SearchKeywordsAsWritten(analysis);
    if keywords.Err? {
      r := Fallback(query);
      return;
    }
    var constraints := ExtractQueryConstraints(analysis);
    r := Preprocessed(query, analysis.normalized, intent, keywords.value,
                      analysis.legalTerms, analysis.entities, constraints);
  }

  /** `preprocess_query` with the intended keyword step: no query falls back,
      and every procedure keyword of the normalised query is searched for. */
  method PreprocessQueryIntended(query: string, scanner: string -> Scans) returns (r: Preprocessed)
    ensures r.original == query && r.intent == QueryIntent(query) && r.normalized == Normalized(query)
    ensures r.legalTerms == Dedup(FoundTerms(LegalTerms, Lower(r.normalized)) + scanner(r.normalized).references)
    ensures r.entities == LegalEntities(r.normalized, scanner(r.normalized))
    ensures r.constraints == QueryConstraints(r.entities, r.normalized)
    ensures NoDuplicates(r.searchKeywords)
    ensures Covers(r.searchKeywords, r.legalTerms, AtMostTen(LongTokens(KeptTokens(Words(r.normalized), Stopwords))),
                   EntityTerms(r.entities))
    ensures ProceduresSearched(r)
  {
    var analysis := ProcessLegalText(query, scanner);
    var intent := QueryIntent(query);
    var keywords := GenerateSearchKeywords(analysis);
    var constraints := ExtractQueryConstraints(analysis);
    r := Preprocessed(query, analysis.normalized, intent, keywords,
                      analysis.legalTerms, analysis.entities, constraints);
    ProcedureKeywordsKept(r, scanner(r.normalized));
  }

  /** Every procedure keyword of the normalised query is a search keyword. */
  ghost predicate ProceduresSearched(r: Preprocessed)
  {
    forall k :: k in Occurring(ProcedureKeywords, Lower(r.normalized)) ==> k in r.searchKeywords
  }

  /** Search keywords covering the entity terms hold every procedure keyword
      of the normalised query. */
  lemma ProcedureKeywordsKept(r: Preprocessed, scans: Scans)
    requires r.entities == LegalEntities(r.normalized, scans)
    requires Covers(r.searchKeywords, r.legalTerms, AtMostTen(LongTokens(KeptTokens(Words(r.normalized), Stopwords))),
                    EntityTerms(r.entities))
    ensures ProceduresSearched(r)
  {
    ProcedureKeywordsSearched(r.normalized, scans, Analysis(r.original, r.normalized, [], r.legalTerms, r.entities));
    ValuesCovered(r.searchKeywords, r.legalTerms, AtMostTen(LongTokens(KeptTokens(Words(r.normalized), Stopwords))),
                  EntityTerms(r.entities));
  }

  // ------------------------------------------------------------- examples

  lemma {:induction false} ApplyTableConcat(a: seq<(string, string)>, b: seq<(string, string)>, s: string, whole: bool)
    requires KeysNonEmpty(a) && KeysNonEmpty(b)
    ensures KeysNonEmpty(a + b)
    ensures ApplyTable(a + b, s, whole) == ApplyTable(b, ApplyTable(a, s, whole), whole)
  {
    assert KeysNonEmpty(a + b) by {
      forall i | 0 <= i < |a + b| ensures (a + b)[i].0 != [] {
        if i < |a| { assert (a + b)[i] == a[i]; } else { assert (a + b)[i] == b[i - |a|]; }
      }
    }
    if b == [] {
      assert a + b == a;
    } else {
      assert (a + b)[..|a + b| - 1] == a + b[..|b| - 1];
      ApplyTableConcat(a, b[..|b| - 1], s, whole);
    }
  }

  /** A table none of whose entries changes `s` leaves `s` as it is. */
  lemma {:induction false} ApplyTableFixed(table: seq<(string, string)>, s: string, whole: bool)
    requires KeysNonEmpty(table)
    requires forall i | 0 <= i < |table| :: Replace(s, table[i].0, table[i].1, whole, false) == s
    ensures ApplyTable(table, s, whole) == s
  {
    if table != [] {
      var init := table[..|table| - 1];
      assert forall i | 0 <= i < |init| :: init[i] == table[i];
      ApplyTableFixed(init, s, whole);
    }
  }

  lemma ReplaceSelf(k: string, v: string)
    requires k != []
    ensures ReplaceAll(k, k, v) == v
  {
    assert k <= k;
    assert k[|k|..] == [];
    assert Replace(k[|k|..], k, v, false, IsWordChar(k[|k| - 1])) == [];
    assert v + [] == v;
  }

  /** `TT` inside `TTX` is not an abbreviation: expansion leaves `TTX` alone. */
  lemma AbbreviationInsideWordKept()
    ensures ApplyTable(Abbreviations, "TTX", true) == "TTX"
  {
    TableKeysNonEmpty();
    var s := "TTX";
    forall i | 0 <= i < |Abbreviations|
      ensures Replace(s, Abbreviations[i].0, Abbreviations[i].1, true, false) == s
    {
      var k := Abbreviations[i].0;
      if k == "TT" {
        WordFollowedIsKept(s, k, Abbreviations[i].1, false);
        assert !Contains("TX", k);
        ReplaceAbsent("TX", k, Abbreviations[i].1, true, true);
      } else {
        assert !Contains(s, k);
        ReplaceAbsent(s, k, Abbreviations[i].1, true, false);
      }
    }
    ApplyTableFixed(Abbreviations, s, true);
  }

  /** A lower-case civil code name becomes the capitalised one, and the
      later rewrites leave it alone. */
  lemma CivilCodeCapitalised()
    ensures ApplyTable(LegalTermRewrites, "bộ luật dân sự", false) == "Bộ luật Dân sự"
  {
    TableKeysNonEmpty();
    var t := LegalTermRewrites;
    var s := "bộ luật dân sự";
    var v := "Bộ luật Dân sự";
    assert t == t[..2] + t[2..];
    ApplyTableConcat(t[..2], t[2..], s, false);
    NotContainsByFirst(s, t[0].0);
    ReplaceAbsent(s, t[0].0, t[0].1, false, false);
    assert t[..2][..1] == [t[0]];
    assert ApplyTable(t[..2][..1], s, false) == s;
    ReplaceSelf(s, v);
    assert ApplyTable(t[..2], s, false) == v;
    forall i | 0 <= i < |t[2..]| ensures Replace(v, t[2..][i].0, t[2..][i].1, false, false) == v {
      var k := t[2..][i].0;
      if |k| > |v| {
        assert !Contains(v, k);
      } else {
        NotContainsByFirst(v, k);
      }
      ReplaceAbsent(v, k, t[2..][i].1, false, false);
    }
    ApplyTableFixed(t[2..], v, false);
  }

  /** No capitalised form is itself one of the names rewritten. */
  lemma RewriteValuesAreNotKeys()
    ensures forall i, j | 0 <= i < |LegalTermRewrites| && 0 <= j < |LegalTermRewrites| ::
      LegalTermRewrites[i].1 != LegalTermRewrites[j].0
  {
  }
}
