/** The rule-based legal analyzer: query classification, domain selection,
    applicable laws from retrieved documents, a templated reasoning text,
    recommendations and warnings, and the error result. Retrieved documents
    and regex matches are inputs. */
module LegalAnalyzer {
  import opened Wrappers
  import opened Strings
  import opened Rules

  /** The values of the `LegalDomain` enumeration, in declared order. */
  const DomainValues: seq<string> :=
    ["hien_phap", "dan_su", "hinh_su", "lao_dong", "thuong_mai", "hanh_chinh", "thue", "bat_dong_san"]

  /** `_classify_query_type`'s rules, in the order tried. */
  const QueryTypeRules: seq<Rule<string>> := [
    Rule("rights_inquiry", ["quyền", "rights"]),
    Rule("obligation_inquiry", ["nghĩa vụ", "obligation"]),
    Rule("procedure_inquiry", ["thủ tục", "procedure"]),
    Rule("violation_inquiry", ["vi phạm", "violation"])
  ]

  const GeneralConsultation := "general_consultation"

  /** `_classify_query_type`: the first rule with a keyword in the
      lower-cased query, else `general_consultation`. */
  function ClassifyQueryType(query: string): (r: string)
    ensures Selects(QueryTypeRules, [Lower(query)], GeneralConsultation, r)
  {
    FirstMatch(QueryTypeRules, [Lower(query)], GeneralConsultation)
  }

  /** Rights are tried first: a query about `quyền` is a rights inquiry even
      when it also names an obligation or a procedure. */
  lemma RightsClassifiedFirst(query: string)
    requires Contains(Lower(query), "quyền")
    ensures ClassifyQueryType(query) == "rights_inquiry"
  {
    HitsBy(Lower(query), QueryTypeRules[0].keywords, 0);
    FirstMatchAt(QueryTypeRules, [Lower(query)], GeneralConsultation, 0);
  }

  /** A procedure query that names no right and no obligation is a
      procedure inquiry. */
  lemma ProcedureClassified(query: string)
    requires !Hits([Lower(query)], QueryTypeRules[0].keywords)
    requires !Hits([Lower(query)], QueryTypeRules[1].keywords)
    requires Contains(Lower(query), "thủ tục")
    ensures ClassifyQueryType(query) == "procedure_inquiry"
  {
    HitsBy(Lower(query), QueryTypeRules[2].keywords, 0);
    FirstMatchAt(QueryTypeRules, [Lower(query)], GeneralConsultation, 2);
  }

  /** The classification is the default exactly when no rule keyword occurs. */
  lemma GeneralIff(query: string)
    ensures ClassifyQueryType(query) == GeneralConsultation <==>
      forall i | 0 <= i < |QueryTypeRules| :: !Hits([Lower(query)], QueryTypeRules[i].keywords)
  {
    var k := FirstHit(QueryTypeRules, [Lower(query)]);
    if k < |QueryTypeRules| {
      assert QueryTypeRules[k].outcome != GeneralConsultation;
    }
  }

  /** `_identify_legal_domain`'s keyword table, in declared order. */
  const DomainRules: seq<Rule<string>> := [
    Rule("dan_su", ["hợp đồng", "tài sản", "kế thừa", "hôn nhân", "dân sự"]),
    Rule("hinh_su", ["tội phạm", "hình phạt", "án tù", "vi phạm pháp luật"]),
    Rule("lao_dong", ["lao động", "công việc", "lương", "bảo hiểm xã hội"]),
    Rule("thuong_mai", ["kinh doanh", "thương mại", "công ty", "doanh nghiệp"]),
    Rule("thue", ["thuế", "khai thuế", "nộp thuế", "miễn thuế"]),
    Rule("bat_dong_san", ["nhà đất", "bất động sản", "mua bán nhà"])
  ]

  /** `_identify_legal_domain`: a non-empty target that is an enumeration
      value wins; otherwise the first domain with a keyword in the
      lower-cased query, else `general`. */
  function IdentifyLegalDomain(query: string, target: Option<string>): (r: string)
    ensures target.Some? && target.value != "" && target.value in DomainValues ==> r == target.value
    ensures !(target.Some? && target.value != "" && target.value in DomainValues) ==>
      Selects(DomainRules, [Lower(query)], "general", r)
  {
    if target.Some? && target.value != "" && target.value in DomainValues then target.value
    else FirstMatch(DomainRules, [Lower(query)], "general")
  }

  lemma ValidTargetKept(query: string, target: string)
    requires target in DomainValues
    ensures IdentifyLegalDomain(query, Some(target)) == target
  {
  }

  /** Without a valid target, the first hitting domain decides, and only a
      query hitting no domain is `general`. */
  lemma DomainByKeywords(query: string, target: Option<string>)
    requires target.None? || target.value !in DomainValues
    ensures var d := IdentifyLegalDomain(query, target);
      (d == "general" <==> forall i | 0 <= i < |DomainRules| :: !Hits([Lower(query)], DomainRules[i].keywords))
      && (d != "general" ==> exists i | 0 <= i < |DomainRules| ::
            DomainRules[i].outcome == d && Hits([Lower(query)], DomainRules[i].keywords)
            && forall j | 0 <= j < i :: !Hits([Lower(query)], DomainRules[j].keywords))
  {
    var k := FirstHit(DomainRules, [Lower(query)]);
    if k < |DomainRules| {
      assert DomainRules[k].outcome != "general";
    }
  }

  // -------------------------------------------------------------- entities

  /** An extracted entity: its type, value and normalised value. */
  datatype Entity = Entity(kind: string, value: string, normalized: string)

  /** `_extract_legal_entities` over the regex matches: each (amount,
      currency) pair, then each date. */
  function ExtractLegalEntities(amounts: seq<(string, string)>, dates: seq<string>): (r: seq<Entity>)
    ensures |r| == |amounts| + |dates|
    ensures forall i | 0 <= i < |amounts| ::
      r[i] == Entity("monetary_amount", amounts[i].0 + " " + amounts[i].1, amounts[i].0 + " " + amounts[i].1)
    ensures forall i | 0 <= i < |dates| :: r[|amounts| + i] == Entity("date", dates[i], dates[i])
  {
    seq(|amounts|, i requires 0 <= i < |amounts| =>
          Entity("monetary_amount", amounts[i].0 + " " + amounts[i].1, amounts[i].0 + " " + amounts[i].1))
    + seq(|dates|, i requires 0 <= i < |dates| => Entity("date", dates[i], dates[i]))
  }

  // -------------------------------------------------------- applicable laws

  /** A retrieved document: content, score and metadata. */
  datatype SearchResult = SearchResult(content: string, score: real, metadata: map<string, string>)

  datatype Law = Law(name: string, article: string, relevance: real, excerpt: string)

  /** The first 200 characters of the content followed by `...`. */
  function Excerpt(content: string): (r: string)
    ensures |r| <= 203 && r == Take(content, 200) + "..."
  {
    Take(content, 200) + "..."
  }

  function LawOf(d: SearchResult): Law
    requires "law_name" in d.metadata
  {
    Law(d.metadata["law_name"], if "article" in d.metadata then d.metadata["article"] else "",
        d.score, Excerpt(d.content))
  }

  /** The laws of the documents that name one, in document order. */
  function LawsOf(docs: seq<SearchResult>): (r: seq<Law>)
    ensures |r| <= |docs|
    ensures forall i | 0 <= i < |r| :: |r[i].excerpt| <= 203
  {
    if docs == [] then []
    else
      var last := docs[|docs| - 1];
      LawsOf(docs[..|docs| - 1]) + (if "law_name" in last.metadata then [LawOf(last)] else [])
  }

  /** Laws follow the document order: the laws of a concatenation are the
      laws of each part, in turn. */
  lemma {:induction false} LawsOfConcat(a: seq<SearchResult>, b: seq<SearchResult>)
    ensures LawsOf(a + b) == LawsOf(a) + LawsOf(b)
  {
    if b == [] {
      assert a + b == a;
    } else {
      assert (a + b)[..|a + b| - 1] == a + b[..|b| - 1];
      LawsOfConcat(a, b[..|b| - 1]);
    }
  }

  /** One document gives one law when it names one, and none otherwise. */
  lemma LawsOfOne(d: SearchResult)
    ensures LawsOf([d]) == if "law_name" in d.metadata then [LawOf(d)] else []
  {
    assert [d][..0] == [];
  }

  /** `_find_applicable_laws`. */
  method FindApplicableLaws(docs: seq<SearchResult>) returns (laws: seq<Law>)
    ensures laws == LawsOf(docs)
  {
    laws := [];
    var i := 0;
    while i < |docs|
      invariant 0 <= i <= |docs|
      invariant laws == LawsOf(docs[..i])
    {
      assert docs[..i + 1][..i] == docs[..i];
      var doc := docs[i];
      if "law_name" in doc.metadata {
        laws := laws + [LawOf(doc)];
      }
      i := i + 1;
    }
    assert docs[..i] == docs;
  }

  // -------------------------------------------------------------- reasoning

  const ReasoningHeader := "Phân tích pháp lý:"
  const LawsHeading := "2. Các quy định pháp luật áp dụng:"
  const EntitiesHeading := "3. Các yếu tố pháp lý được xác định:"
  const ReasoningConclusion := "4. Kết luận và hướng dẫn sẽ được đưa ra dựa trên các quy định trên."

  function LawLine(law: Law): string
  {
    "   - " + law.name + ": " + law.article
  }

  function EntityLine(e: Entity): string
  {
    "   - " + e.kind + ": " + e.value
  }

  /** The law section: the heading and at most the first three laws. */
  function LawSection(laws: seq<Law>): (r: seq<string>)
    ensures laws == [] <==> r == []
    ensures |r| <= 4
  {
    if laws == [] then []
    else
      var top := if |laws| <= 3 then laws else laws[..3];
      [LawsHeading] + seq(|top|, i requires 0 <= i < |top| => LawLine(top[i]))
  }

  function EntitySection(entities: seq<Entity>): (r: seq<string>)
    ensures entities == [] <==> r == []
    ensures |r| == if entities == [] then 0 else |entities| + 1
  {
    if entities == [] then []
    else [EntitiesHeading] + seq(|entities|, i requires 0 <= i < |entities| => EntityLine(entities[i]))
  }

  /** The reasoning lines: header, issue, the sections that are non-empty,
      and the conclusion. */
  function ReasoningParts(query: string, laws: seq<Law>, entities: seq<Entity>): (r: seq<string>)
    ensures |r| >= 3 && r[0] == ReasoningHeader && r[|r| - 1] == ReasoningConclusion
    ensures r[1] == "1. Vấn đề được đặt ra: " + query
    ensures |r| == 3 + |LawSection(laws)| + |EntitySection(entities)|
    ensures laws != [] ==> r[2] == LawsHeading
    ensures laws == [] && entities != [] ==> r[2] == EntitiesHeading
  {
    [ReasoningHeader, "1. Vấn đề được đặt ra: " + query] + LawSection(laws) + EntitySection(entities)
      + [ReasoningConclusion]
  }

  /** Appends the lines of `xs` rendered by `line`. */
  method AppendLines<T>(parts: seq<string>, xs: seq<T>, line: T -> string) returns (r: seq<string>)
    ensures r == parts + seq(|xs|, i requires 0 <= i < |xs| => line(xs[i]))
  {
    r := parts;
    var i := 0;
    while i < |xs|
      invariant 0 <= i <= |xs|
      invariant r == parts + seq(i, k requires 0 <= k < i => line(xs[k]))
    {
      r := r + [line(xs[i])];
      i := i + 1;
    }
  }

  /** `_perform_legal_reasoning`: the reasoning lines joined by newlines. */
  method PerformLegalReasoning(query: string, laws: seq<Law>, entities: seq<Entity>) returns (r: string)
    ensures r == Join(ReasoningParts(query, laws, entities), "\n")
  {
    var head := [ReasoningHeader, "1. Vấn đề được đặt ra: " + query];
    var parts := head;
    if laws != [] {
      var top := if |laws| <= 3 then laws else laws[..3];
      parts := AppendLines(parts + [LawsHeading], top, LawLine);
      assert parts == head + LawSection(laws) by {
        ConcatAssoc(head, [LawsHeading], seq(|top|, i requires 0 <= i < |top| => LawLine(top[i])));
      }
    } else {
      assert head + LawSection(laws) == head;
    }
    ghost var upToLaws := parts;
    if entities != [] {
      parts := AppendLines(parts + [EntitiesHeading], entities, EntityLine);
      assert parts == upToLaws + EntitySection(entities) by {
        ConcatAssoc(upToLaws, [EntitiesHeading], seq(|entities|, i requires 0 <= i < |entities| => EntityLine(entities[i])));
      }
    } else {
      assert upToLaws + EntitySection(entities) == upToLaws;
    }
    parts := parts + [ReasoningConclusion];
    r := Join(parts, "\n");
  }

  // ------------------------------------------------- recommendations, warnings

  const ProcedureAdvice: seq<string> :=
    ["Chuẩn bị đầy đủ giấy tờ theo quy định", "Liên hệ cơ quan có thẩm quyền để được hướng dẫn cụ thể"]
  const ContractAdvice: seq<string> :=
    ["Đọc kỹ các điều khoản trong hợp đồng", "Tham khảo ý kiến luật sư nếu cần thiết"]

  /** `_generate_recommendations`: procedure advice, then contract advice,
      each when its keyword occurs in the lower-cased query. */
  function GenerateRecommendations(query: string): (r: seq<string>)
    ensures |r| == (if Contains(Lower(query), "thủ tục") then 2 else 0)
                   + (if Contains(Lower(query), "hợp đồng") then 2 else 0)
    ensures Contains(Lower(query), "thủ tục") ==> r[..2] == ProcedureAdvice
    ensures Contains(Lower(query), "hợp đồng") ==> r[|r| - 2..] == ContractAdvice
  {
    (if Contains(Lower(query), "thủ tục") then ProcedureAdvice else [])
    + (if Contains(Lower(query), "hợp đồng") then ContractAdvice else [])
  }

  const DeadlineWarning := "Lưu ý về thời hạn theo quy định pháp luật"
  const CriminalWarning := "Đây là vấn đề thuộc lĩnh vực hình sự, cần tham khảo luật sư"

  /** `_identify_legal_warnings`: a deadline warning when a time word occurs,
      then a criminal-law warning when `hình sự` occurs. */
  function IdentifyLegalWarnings(query: string): (r: seq<string>)
    ensures DeadlineWarning in r <==> Hits([Lower(query)], ["thời hạn", "deadline", "hết hạn"])
    ensures CriminalWarning in r <==> Contains(Lower(query), "hình sự")
    ensures |r| <= 2
  {
    (if Hits([Lower(query)], ["thời hạn", "deadline", "hết hạn"]) then [DeadlineWarning] else [])
    + (if Contains(Lower(query), "hình sự") then [CriminalWarning] else [])
  }

  // ---------------------------------------------------------------- results

  /** `LegalAnalysisResult`; related cases are always empty here. */
  datatype AnalysisResult = AnalysisResult(analysisType: string, confidence: real,
                                           keyFindings: seq<string>, laws: seq<Law>,
                                           reasoning: string, recommendations: seq<string>,
                                           warnings: seq<string>, relatedCases: seq<string>)

  const AnalysisFailedWarning := "Không thể thực hiện phân tích pháp lý"

  /** `_create_error_result`. */
  function CreateErrorResult(message: string): (r: AnalysisResult)
    ensures r.analysisType == "error" && r.confidence == 0.0
    ensures r.keyFindings == [] && r.laws == [] && r.recommendations == [] && r.relatedCases == []
    ensures r.warnings == [AnalysisFailedWarning]
    ensures r.reasoning == "Lỗi phân tích: " + message
  {
    AnalysisResult("error", 0.0, [], [], "Lỗi phân tích: " + message, [], [AnalysisFailedWarning], [])
  }

  /** The one key finding of a successful analysis. */
  const BasisFinding := "Phân tích dựa trên các quy định pháp luật hiện hành"

  /** `analyze_legal_query`. `docs` is the retrieved context, or the error an
      access to it raised; any such error gives the error result. */
  method AnalyzeLegalQuery(query: string, docs: Result<seq<SearchResult>, string>,
                           amounts: seq<(string, string)>, dates: seq<string>)
    returns (r: AnalysisResult)
    ensures docs.Err? ==> r == CreateErrorResult(docs.error)
    ensures docs.Ok? ==>
      r.analysisType == ClassifyQueryType(query) && r.confidence == 0.8
      && r.laws == LawsOf(docs.value)
      && r.reasoning == Join(ReasoningParts(query, LawsOf(docs.value), ExtractLegalEntities(amounts, dates)), "\n")
      && r.recommendations == GenerateRecommendations(query)
      && r.warnings == IdentifyLegalWarnings(query) && r.relatedCases == []
      && r.keyFindings == [BasisFinding]
  {
    if docs.Err? {
      return CreateErrorResult(docs.error);
    }
    var queryType := ClassifyQueryType(query);
    var entities := ExtractLegalEntities(amounts, dates);
    var laws := FindApplicableLaws(docs.value);
    var reasoning := PerformLegalReasoning(query, laws, entities);
    r := AnalysisResult(queryType, 0.8, [BasisFinding],
                        laws, reasoning, GenerateRecommendations(query), IdentifyLegalWarnings(query), []);
  }
}
