/** The web-search service: availability by API key, the accumulation of
    search results over five query templates with a per-query cap and an
    overall limit, and the search suggestions. The search call is an input. */
module SerpService {
  import opened Wrappers
  import opened Strings

  /** One organic search result; absent fields are `None`. */
  datatype SerpResult = SerpResult(position: Option<nat>, title: Option<string>, link: Option<string>,
                                   snippet: Option<string>)

  /** A document built from a search result. */
  datatype LegalDoc = LegalDoc(id: string, title: string, content: string, lawType: string, article: string,
                               authority: string, source: string, snippet: string, url: string,
                               relevance: real, searchQuery: string)

  function OrElse(o: Option<string>, d: string): string
  {
    if o.Some? then o.value else d
  }

  /** The five query templates, in the order tried. */
  function Queries(question: string): (qs: seq<string>)
    ensures |qs| == 5
  {
    ["\"" + question + "\" thư viện pháp luật việt nam",
     "\"" + question + "\" luật việt nam filetype:pdf",
     "\"" + question + "\" bộ luật dân sự việt nam",
     "\"" + question + "\" site:thuvienphapluat.vn",
     question + " pháp luật việt nam"]
  }

  /** The fixed pieces of the content template. */
  const ContentHead := "\U{1f50d} **Kết quả tìm kiếm tự động**\n\n**Nguồn:** "
  const TitleLabel := "\n\n**Tiêu đề:** "
  const SnippetLabel := "\n\n**Mô tả:** "
  const QuestionLabel := "\n\n**Câu hỏi liên quan:** \""
  const ContentNotice := "\"\n\n**\U{26a0}\U{fe0f} Lưu ý quan trọng:** "
    + "\n- Đây là kết quả tìm kiếm tự động từ internet"
    + "\n- Vui lòng truy cập nguồn gốc để có thông tin chính xác và cập nhật"
    + "\n- Nên tham khảo thêm các tài liệu pháp lý chính thức"
    + "\n- Thông tin có thể cần được xác minh bởi chuyên gia pháp lý"
    + "\n\n**Truy cập nguồn:** "

  /** `_format_serp_content`: the template with the link, title, snippet
      and question filled in. */
  function FormatContent(r: SerpResult, question: string): string
  {
    Join(ContentPieces(r, question), "")
  }

  /** The template's pieces, in order; a missing field is empty text. */
  function ContentPieces(r: SerpResult, question: string): seq<string>
  {
    [ContentHead, OrElse(r.link, ""), TitleLabel, OrElse(r.title, ""), SnippetLabel, OrElse(r.snippet, ""),
     QuestionLabel, question, ContentNotice, OrElse(r.link, "")]
  }

  /** The content shows the result's link, title and snippet and quotes the
      question. */
  lemma ContentMentions(r: SerpResult, question: string)
    ensures var c := FormatContent(r, question);
      Contains(c, OrElse(r.link, "")) && Contains(c, OrElse(r.title, ""))
      && Contains(c, OrElse(r.snippet, "")) && Contains(c, question)
  {
    var pieces := ContentPieces(r, question);
    JoinContains(pieces, "", 1);
    JoinContains(pieces, "", 3);
    JoinContains(pieces, "", 5);
    JoinContains(pieces, "", 7);
  }

  /** The identifier of the document at position `count` of the list. */
  function DocId(r: SerpResult, count: nat): string
  {
    "serp_" + NatToString(if r.position.Some? then r.position.value else 0) + "_" + NatToString(count)
  }

  const DefaultTitle := "Tài liệu pháp lý"
  const SearchArticle := "Kết quả tìm kiếm"

  /** The document built from result `r` of `query` when `count` documents
      precede it. */
  function MakeDoc(r: SerpResult, count: nat, query: string, question: string): (d: LegalDoc)
    ensures d.relevance == 0.8 && d.searchQuery == query && d.id == DocId(r, count)
  {
    LegalDoc(DocId(r, count), OrElse(r.title, DefaultTitle), FormatContent(r, question), "tim_kiem",
             SearchArticle, "SerpAPI", OrElse(r.link, ""), OrElse(r.snippet, ""), OrElse(r.link, ""),
             0.8, query)
  }

  /** Identifiers at different positions of the list differ. */
  lemma DocIdsDistinct(a: SerpResult, i: nat, b: SerpResult, j: nat)
    requires i != j
    ensures DocId(a, i) != DocId(b, j)
  {
    CountAfterUnderscore(a, i);
    CountAfterUnderscore(b, j);
    if DocId(a, i) == DocId(b, j) {
      NatToStringInjective(i, j);
    }
  }

  /** After the prefix, the count is what follows the first underscore. */
  lemma CountAfterUnderscore(r: SerpResult, count: nat)
    ensures var t := DocId(r, count)[5..]; '_' in t && t[IndexOf(t, '_') + 1..] == NatToString(count)
  {
    var p := NatToString(if r.position.Some? then r.position.value else 0);
    var rest := p + "_" + NatToString(count);
    ConcatAssoc("serp_", p, "_");
    ConcatAssoc("serp_", p + "_", NatToString(count));
    DropPrefix("serp_", rest);
    DigitsBeforeUnderscore(p, NatToString(count));
  }

  lemma DropPrefix(a: string, b: string)
    ensures (a + b)[|a|..] == b
  {
  }

  /** In `p + "_" + s` with `p` made of digits, `s` is what follows the first
      underscore. */
  lemma DigitsBeforeUnderscore(p: string, s: string)
    requires forall k | 0 <= k < |p| :: IsDigit(p[k])
    ensures var t := p + "_" + s; '_' in t && t[IndexOf(t, '_') + 1..] == s
  {
    var t := p + "_" + s;
    assert t[|p|] == '_';
    assert t[|p| + 1..] == s;
  }

  // ----------------------------------------------------------- accumulation

  /** A search result together with the query that found it. */
  datatype Candidate = Candidate(result: SerpResult, query: string)

  function Tagged(rs: seq<SerpResult>, query: string): (cs: seq<Candidate>)
    ensures |cs| == |rs|
    ensures forall k | 0 <= k < |cs| :: cs[k] == Candidate(rs[k], query)
  {
    seq(|rs|, k requires 0 <= k < |rs| => Candidate(rs[k], query))
  }

  /** The results a query contributes before any limit: at most the first
      two, none when the search raises. */
  function Part(query: string, search: string -> Result<seq<SerpResult>, string>): (cs: seq<Candidate>)
    ensures |cs| <= 2
    ensures forall k | 0 <= k < |cs| :: cs[k].query == query
  {
    match search(query)
    case Ok(rs) => Tagged(if |rs| <= 2 then rs else rs[..2], query)
    case Err(_) => []
  }

  /** Every query's contribution, in query order. */
  function Candidates(qs: seq<string>, search: string -> Result<seq<SerpResult>, string>): seq<Candidate>
  {
    if qs == [] then [] else Part(qs[0], search) + Candidates(qs[1..], search)
  }

  /** The inner loop: append results, stopping as soon as `limit` is reached. */
  function AddUpTo(acc: seq<Candidate>, cs: seq<Candidate>, limit: int): seq<Candidate>
    decreases |cs|
  {
    if cs == [] then acc
    else
      var d := acc + [cs[0]];
      if |d| >= limit then d else AddUpTo(d, cs[1..], limit)
  }

  /** The outer loop: a failing query is skipped, and the loop stops once the
      limit is reached after a query. */
  function Gather(acc: seq<Candidate>, qs: seq<string>, search: string -> Result<seq<SerpResult>, string>,
                  limit: int): seq<Candidate>
    decreases |qs|
  {
    if qs == [] then acc
    else match search(qs[0])
      case Err(_) => Gather(acc, qs[1..], search, limit)
      case Ok(_) =>
        var d := AddUpTo(acc, Part(qs[0], search), limit);
        if |d| >= limit then d else Gather(d, qs[1..], search, limit)
  }

  lemma {:induction false} AddUpToIsPrefix(acc: seq<Candidate>, cs: seq<Candidate>, limit: nat)
    requires |acc| < limit
    ensures AddUpTo(acc, cs, limit) == Take(acc + cs, limit)
    decreases |cs|
  {
    if cs == [] {
      assert acc + cs == acc;
    } else {
      var d := acc + [cs[0]];
      assert (acc + cs)[..|acc| + 1] == d;
      if |d| < limit {
        AddUpToIsPrefix(d, cs[1..], limit);
        assert d + cs[1..] == acc + cs;
      }
    }
  }

  /** With a positive limit, the documents gathered are the first `limit`
      candidates of all queries in order. */
  lemma {:induction false} GatherIsPrefix(acc: seq<Candidate>, qs: seq<string>,
                                          search: string -> Result<seq<SerpResult>, string>, limit: nat)
    requires |acc| < limit
    ensures Gather(acc, qs, search, limit) == Take(acc + Candidates(qs, search), limit)
    decreases |qs|
  {
    if qs == [] {
      assert acc + [] == acc;
    } else {
      var p := Part(qs[0], search);
      var rest := Candidates(qs[1..], search);
      assert acc + Candidates(qs, search) == (acc + p) + rest;
      match search(qs[0])
      case Err(_) =>
        assert p == [];
        assert acc + p == acc;
        GatherIsPrefix(acc, qs[1..], search, limit);
      case Ok(_) =>
        AddUpToIsPrefix(acc, p, limit);
        var d := Take(acc + p, limit);
        if |d| < limit {
          assert d == acc + p;
          GatherIsPrefix(d, qs[1..], search, limit);
        } else {
          PrefixLong(acc + p, rest, limit);
        }
    }
  }

  lemma PrefixLong(a: seq<Candidate>, b: seq<Candidate>, n: nat)
    requires |a| >= n
    ensures Take(a + b, n) == Take(a, n)
  {
    assert (a + b)[..n] == a[..n];
  }

  /** With a non-positive limit at most one document is gathered. */
  lemma {:induction false} GatherNonPositive(qs: seq<string>, search: string -> Result<seq<SerpResult>, string>,
                                             limit: int)
    requires limit <= 0
    ensures |Gather([], qs, search, limit)| <= 1
    decreases |qs|
  {
    if qs != [] {
      match search(qs[0])
      case Err(_) => GatherNonPositive(qs[1..], search, limit);
      case Ok(_) =>
    }
  }

  /** Python's `docs[:n]` for any integer `n`. */
  function PyPrefix<T>(s: seq<T>, n: int): (r: seq<T>)
    ensures r <= s
    ensures n >= 0 ==> |r| == if n < |s| then n else |s|
    ensures n < 0 ==> |r| == if |s| + n > 0 then |s| + n else 0
  {
    if n >= 0 then Take(s, n)
    else if |s| + n > 0 then s[..|s| + n] else []
  }

  /** The documents the candidates become, numbered by their position. */
  function DocsOf(cs: seq<Candidate>, question: string): (ds: seq<LegalDoc>)
    ensures |ds| == |cs|
    ensures forall k | 0 <= k < |cs| :: ds[k] == MakeDoc(cs[k].result, k, cs[k].query, question)
  {
    seq(|cs|, k requires 0 <= k < |cs| => MakeDoc(cs[k].result, k, cs[k].query, question))
  }

  lemma DocsOfSnoc(cs: seq<Candidate>, c: Candidate, question: string)
    ensures DocsOf(cs + [c], question) == DocsOf(cs, question) + [MakeDoc(c.result, |cs|, c.query, question)]
  {
    assert (cs + [c])[|cs|] == c;
  }

  const BaseTerms: seq<string> := ["luật việt nam", "bộ luật dân sự", "bộ luật hình sự", "bộ luật lao động",
                                   "thư viện pháp luật", "văn bản pháp luật", "nghị định", "thông tư"]

  /** `SerpAPIService`. */
  class SerpApiService {
    const apiKey: string
    const isAvailable: bool

    constructor (apiKey: string)
      ensures this.apiKey == apiKey
      ensures isAvailable <==> apiKey != "" && apiKey != "demo-serp-key"
    {
      this.apiKey := apiKey;
      isAvailable := apiKey != "" && apiKey != "demo-serp-key";
    }

    /** `search_legal_documents`; `search` is the search call, `Err` when it
        raises, `Ok` with its organic results otherwise. */
    method SearchLegalDocuments(question: string, maxResults: int,
                                search: string -> Result<seq<SerpResult>, string>)
      returns (docs: seq<LegalDoc>)
      ensures !isAvailable ==> docs == []
      ensures isAvailable ==>
        docs == PyPrefix(DocsOf(Gather([], Queries(question), search, maxResults), question), maxResults)
    {
      if !isAvailable {
        return [];
      }
      var qs := Queries(question);
      var legalDocs: seq<LegalDoc> := [];
      ghost var acc: seq<Candidate> := [];
      var i := 0;
      var stopped := false;
      while i < |qs| && !stopped
        invariant 0 <= i <= |qs|
        invariant legalDocs == DocsOf(acc, question)
        invariant !stopped ==> Gather([], qs, search, maxResults) == Gather(acc, qs[i..], search, maxResults)
        invariant stopped ==> Gather([], qs, search, maxResults) == acc
      {
        var query := qs[i];
        var outcome := search(query);
        assert qs[i..][0] == query && qs[i..][1..] == qs[i + 1..];
        if outcome.Ok? {
          var organic := if |outcome.value| <= 2 then outcome.value else outcome.value[..2];
          assert Part(query, search) == Tagged(organic, query);
          legalDocs := AddDocs(legalDocs, acc, organic, query, question, maxResults);
          acc := AddUpTo(acc, Part(query, search), maxResults);
          if |legalDocs| >= maxResults {
            stopped := true;
          }
        }
        i := i + 1;
      }
      assert !stopped ==> qs[i..] == [];
      docs := PyPrefix(legalDocs, maxResults);
    }

    /** The inner loop of `search_legal_documents`: a document per result,
        numbered on from `docs`, until `limit` documents are reached. */
    method AddDocs(docs: seq<LegalDoc>, ghost acc: seq<Candidate>, organic: seq<SerpResult>, query: string,
                   question: string, limit: int)
      returns (result: seq<LegalDoc>)
      requires docs == DocsOf(acc, question)
      ensures result == DocsOf(AddUpTo(acc, Tagged(organic, query), limit), question)
    {
      result := docs;
      ghost var cur := acc;
      ghost var cs := Tagged(organic, query);
      var j := 0;
      var full := false;
      while j < |organic| && !full
        invariant 0 <= j <= |organic|
        invariant result == DocsOf(cur, question)
        invariant AddUpTo(acc, cs, limit) == if full then cur else AddUpTo(cur, cs[j..], limit)
      {
        assert cs[j..][0] == Candidate(organic[j], query) && cs[j..][1..] == cs[j + 1..];
        DocsOfSnoc(cur, Candidate(organic[j], query), question);
        result := result + [MakeDoc(organic[j], |result|, query, question)];
        cur := cur + [Candidate(organic[j], query)];
        if |result| >= limit {
          full := true;
        }
        j := j + 1;
      }
      assert !full ==> cs[j..] == [];
    }

    /** `is_service_available`. */
    predicate IsServiceAvailable()
    {
      isAvailable
    }

    /** `get_search_suggestions`. */
    method GetSearchSuggestions(question: string) returns (suggestions: seq<string>)
      ensures |suggestions| == 5
      ensures forall k | 0 <= k < 5 :: suggestions[k] == question + " " + BaseTerms[k]
    {
      var all: seq<string> := [];
      var i := 0;
      while i < |BaseTerms|
        invariant 0 <= i <= |BaseTerms| && |all| == i
        invariant forall k | 0 <= k < i :: all[k] == question + " " + BaseTerms[k]
      {
        all := all + [question + " " + BaseTerms[i]];
        i := i + 1;
      }
      suggestions := all[..5];
    }
  }

  /** With a positive limit, the result is the first `maxResults` candidates
      as documents: never more than `maxResults`, at most two per query, in
      query order, failing queries contributing nothing. */
  lemma SearchTakesFirstCandidates(question: string, maxResults: nat,
                                   search: string -> Result<seq<SerpResult>, string>)
    requires maxResults > 0
    ensures var docs := PyPrefix(DocsOf(Gather([], Queries(question), search, maxResults), question), maxResults);
      docs == DocsOf(Take(Candidates(Queries(question), search), maxResults), question)
      && |docs| <= maxResults
  {
    GatherIsPrefix([], Queries(question), search, maxResults);
    assert [] + Candidates(Queries(question), search) == Candidates(Queries(question), search);
  }

  /** With a non-positive limit the result is empty. */
  lemma SearchNonPositiveLimit(question: string, maxResults: int,
                               search: string -> Result<seq<SerpResult>, string>)
    requires maxResults <= 0
    ensures PyPrefix(DocsOf(Gather([], Queries(question), search, maxResults), question), maxResults) == []
  {
    GatherNonPositive(Queries(question), search, maxResults);
  }

  /** Document identifiers are pairwise distinct. */
  lemma DocIdsUnique(cs: seq<Candidate>, question: string)
    ensures var ds := DocsOf(cs, question);
      forall i, j | 0 <= i < j < |ds| :: ds[i].id != ds[j].id
  {
    var ds := DocsOf(cs, question);
    forall i, j | 0 <= i < j < |ds| ensures ds[i].id != ds[j].id {
      DocIdsDistinct(cs[i].result, i, cs[j].result, j);
    }
  }
}
