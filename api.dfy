/** The REST API helpers: domain auto-detection, validation of a legal
    query with the default-domain override, the placeholder response, the
    upload validation and the text preview. HTTP plumbing, the clock and the
    file system are left to the caller. */
module Api {
  import opened Wrappers
  import opened Strings
  import opened Rules

  /** A domain's entry in `VIETNAMESE_LEGAL_DOMAINS`, without its keywords,
      which `ApiDomainRules` holds. */
  datatype DomainInfo = DomainInfo(name: string, description: string, primaryLaw: string)

  /** The domain keywords, in the table's declaration order. */
  const ApiDomainRules: seq<Rule<string>> := [
    Rule("dan_su", ["hợp đồng", "sở hữu", "thừa kế", "dân sự", "tài sản"]),
    Rule("hinh_su", ["tội phạm", "hình phạt", "tố tụng", "án", "tòa án"]),
    Rule("lao_dong", ["lao động", "nghỉ việc", "lương", "bảo hiểm", "thôi việc"]),
    Rule("thuong_mai", ["kinh doanh", "thương mại", "công ty", "doanh nghiệp"]),
    Rule("gia_dinh", ["kết hôn", "ly hôn", "trẻ em", "con nuôi", "gia đình"])
  ]

  const ApiDomains: map<string, DomainInfo> := map[
    "dan_su" := DomainInfo("Luật Dân sự", "Quyền sở hữu, hợp đồng, nghĩa vụ dân sự, thừa kế", "Bộ luật Dân sự 2015"),
    "hinh_su" := DomainInfo("Luật Hình sự", "Tội phạm, hình phạt, thủ tục tố tụng hình sự", "Bộ luật Hình sự 2015"),
    "lao_dong" := DomainInfo("Luật Lao động", "Hợp đồng lao động, quyền lao động, bảo hiểm xã hội", "Bộ luật Lao động 2019"),
    "thuong_mai" := DomainInfo("Luật Thương mại", "Kinh doanh, thương mại, cạnh tranh", "Luật Thương mại 2005"),
    "gia_dinh" := DomainInfo("Luật Gia đình", "Hôn nhân, ly hôn, quyền trẻ em, nhận con nuôi", "Luật Hôn nhân và Gia đình 2014")
  ]

  datatype Region = Region(name: string, specialties: seq<string>, legalFocus: seq<string>)

  const Regions: map<string, Region> := map[
    "north" := Region("Miền Bắc", ["Đất nông nghiệp", "Di sản văn hóa", "Thương mại biên giới"],
                      ["Luật Đất đai", "Luật Di sản văn hóa"]),
    "central" := Region("Miền Trung", ["Du lịch", "Thủy sản", "Thiên tai"],
                        ["Luật Du lịch", "Luật Thủy sản", "Luật Phòng chống thiên tai"]),
    "south" := Region("Miền Nam", ["Thương mại", "Xuất nhập khẩu", "Nông nghiệp"],
                      ["Luật Thương mại", "Luật Hải quan", "Luật Nông nghiệp"]),
    "special_zones" := Region("Khu Kinh tế Đặc biệt", ["Đầu tư FDI", "Thuế ưu đãi", "Hải quan"],
                              ["Luật Đầu tư", "Luật Thuế", "Luật Hải quan"])
  ]

  /** Every rule names a domain of the table. */
  lemma RuleDomainsAreKeys()
    ensures forall i | 0 <= i < |ApiDomainRules| :: ApiDomainRules[i].outcome in ApiDomains
  {
  }

  // ---------------------------------------------------------- auto-detection

  /** The nested loop of `auto_detect_legal_domain` over any ordered table:
      the outcome of the first entry with a keyword in `text`. */
  method FirstDomainHit(rules: seq<Rule<string>>, text: string) returns (d: Option<string>)
    ensures d == FirstOutcome(rules, text)
  {
    var i := 0;
    while i < |rules|
      invariant 0 <= i <= |rules|
      invariant forall j | 0 <= j < i :: !Hits([text], rules[j].keywords)
      invariant FirstHit(rules, [text]) >= i
    {
      var keywords := rules[i].keywords;
      var k := 0;
      while k < |keywords|
        invariant 0 <= k <= |keywords|
        invariant forall m | 0 <= m < k :: !Contains(text, keywords[m])
      {
        if Contains(text, keywords[k]) {
          HitsBy(text, keywords, k);
          return Some(rules[i].outcome);
        }
        k := k + 1;
      }
      assert !Hits([text], keywords) by {
        assert [text][0] == text;
      }
      i := i + 1;
    }
    return None;
  }

  /** `auto_detect_legal_domain`. */
  method AutoDetectLegalDomain(question: string) returns (d: Option<string>)
    ensures d == FirstOutcome(ApiDomainRules, Lower(question))
    ensures d.Some? ==> d.value in ApiDomains
  {
    d := FirstDomainHit(ApiDomainRules, Lower(question));
    RuleDomainsAreKeys();
  }

  /** Nothing is detected exactly when no keyword of any domain occurs. */
  lemma NothingDetectedIff(question: string)
    ensures FirstOutcome(ApiDomainRules, Lower(question)) == None <==>
      forall i | 0 <= i < |ApiDomainRules| :: !Hits([Lower(question)], ApiDomainRules[i].keywords)
  {
  }

  /** A divorce question that names no keyword of an earlier domain is a
      family-law question. */
  lemma DivorceIsFamily(question: string)
    requires forall i | 0 <= i < 4 :: !Hits([Lower(question)], ApiDomainRules[i].keywords)
    requires Contains(Lower(question), "ly hôn")
    ensures FirstOutcome(ApiDomainRules, Lower(question)) == Some("gia_dinh")
  {
    HitsBy(Lower(question), ApiDomainRules[4].keywords, 1);
    var k := FirstHit(ApiDomainRules, [Lower(question)]);
    assert k == 4;
  }

  /** `án` is a criminal-law keyword, so any word containing it, such as
      `bán` (to sell), makes a question without a civil-law keyword a
      criminal-law question. */
  lemma SaleIsCriminal(question: string)
    requires !Hits([Lower(question)], ApiDomainRules[0].keywords)
    requires Contains(Lower(question), "bán")
    ensures FirstOutcome(ApiDomainRules, Lower(question)) == Some("hinh_su")
  {
    assert IsAt("bán", "án", 1);
    ContainsTrans(Lower(question), "bán", "án");
    HitsBy(Lower(question), ApiDomainRules[1].keywords, 3);
    var k := FirstHit(ApiDomainRules, [Lower(question)]);
    assert k == 1;
  }

  // ------------------------------------------------------------ legal query

  /** An `HTTPException`: its status and detail. */
  datatype HttpError = HttpError(status: nat, detail: string)

  /** `str()` of an `HTTPException`, as the catch-all handler sees it. */
  function ErrorText(e: HttpError): string
  {
    NatToString(e.status) + ": " + e.detail
  }

  const InvalidDomain := HttpError(400, "Invalid legal domain. Supported: ['dan_su', 'hinh_su', 'lao_dong', 'thuong_mai', 'gia_dinh']")
  const InvalidRegion := HttpError(400, "Invalid region. Supported: ['north', 'central', 'south', 'special_zones']")

  /** The `except Exception` of `process_legal_query`: every error, the 400s
      included, becomes a 500. */
  function InternalError(e: HttpError): (r: HttpError)
    ensures r.status == 500
  {
    HttpError(500, "Internal server error: " + ErrorText(e))
  }

  /** The domain after the override: the detected one replaces only the
      default `dan_su`. */
  function EffectiveDomain(requested: string, detected: Option<string>): (d: string)
    ensures d != requested ==> requested == "dan_su" && detected.Some? && d == detected.value
    ensures requested == "dan_su" && detected.Some? && detected.value != "" ==> d == detected.value
  {
    if detected.Some? && detected.value != "" && requested == "dan_su" then detected.value else requested
  }

  /** A requested non-default domain is never overridden. */
  lemma ExplicitDomainKept(requested: string, question: string)
    requires requested != "dan_su"
    ensures EffectiveDomain(requested, FirstOutcome(ApiDomainRules, Lower(question))) == requested
  {
  }

  /** The domain used after validation is always a known domain. */
  lemma EffectiveDomainKnown(requested: string, question: string)
    requires requested in ApiDomains
    ensures EffectiveDomain(requested, FirstOutcome(ApiDomainRules, Lower(question))) in ApiDomains
  {
    RuleDomainsAreKeys();
  }

  /** `LegalQuery`; `process_legal_query` rewrites its domain in place. */
  class LegalQuery {
    var question: string
    var domain: string
    var region: string
    var userId: Option<string>
    var sessionId: Option<string>

    constructor (question: string, domain: string, region: string)
      ensures this.question == question && this.domain == domain && this.region == region
      ensures userId.None? && sessionId.None?
    {
      this.question := question;
      this.domain := domain;
      this.region := region;
      userId := None;
      sessionId := None;
    }
  }

  datatype Citation = Citation(title: string, article: string, clause: string, content: string,
                               authority: string, date: string, url: string)

  /** `LegalResponse`, without its creation timestamp. */
  datatype LegalResponse = LegalResponse(content: string, citations: seq<Citation>, confidence: real,
                                         domain: string, warnings: seq<string>)

  /** The fixed pieces of the placeholder answer's template. */
  const ResponseIntro := "\n\U{1f50d} **Phân tích câu hỏi pháp lý**\n\nDựa trên câu hỏi: \""
  const DomainLabel := "\"\n\n\U{1f4cb} **Lĩnh vực pháp lý:** "
  const RegionLabel := "\n\U{1f30f} **Vùng miền:** "
  const BasisLabel := "\n\n\U{2696}\U{fe0f} **Cơ sở pháp lý chính:**\n- "
  const GuidanceLabel := "\n- Các văn bản hướng dẫn liên quan\n\n\U{1f4d6} **Hướng dẫn cụ thể:**\n1. Tham khảo "
  const ComplianceLabel := "\n2. Tuân thủ quy định của "
  const SpecialtiesLabel := "\n3. Đặc thù về: "
  const ResponseFooter := "\n\n\U{26a0}\U{fe0f} **Lưu ý quan trọng:**"
    + "\n- Thông tin này chỉ mang tính chất tham khảo"
    + "\n- Khuyến nghị tham khảo ý kiến luật sư cho các vấn đề phức tạp"
    + "\n- Kiểm tra văn bản pháp luật mới nhất"
    + "\n\n\U{1f3db}\U{fe0f} **Liên hệ hỗ trợ:**"
    + "\n- Tổng đài tư vấn pháp luật: 1900-96-96"
    + "\n- Website: https://moj.gov.vn\n"

  /** The placeholder markdown answer: the template with the question, the
      domain's name and primary law and the region's name and specialties
      filled in. */
  function ResponseContent(question: string, info: DomainInfo, place: Region): string
  {
    Join(ResponsePieces(question, info, place), "")
  }

  /** The template's pieces, in order. */
  function ResponsePieces(question: string, info: DomainInfo, place: Region): seq<string>
  {
    [ResponseIntro, question, DomainLabel, info.name, RegionLabel, place.name,
     BasisLabel, info.primaryLaw, GuidanceLabel, info.primaryLaw,
     ComplianceLabel, place.name, SpecialtiesLabel, Join(place.specialties, ", "), ResponseFooter]
  }

  /** The answer quotes the question and names the domain's primary law and
      the region. */
  lemma ResponseMentions(question: string, info: DomainInfo, place: Region)
    ensures var c := ResponseContent(question, info, place);
      Contains(c, question) && Contains(c, info.primaryLaw) && Contains(c, place.name)
  {
    var pieces := ResponsePieces(question, info, place);
    JoinContains(pieces, "", 1);
    JoinContains(pieces, "", 5);
    JoinContains(pieces, "", 7);
  }

  /** The placeholder citation, whose title is the domain's primary law. */
  const PlaceholderCitation := Citation("", "Điều 15", "Khoản 1", "Quy định về quyền và nghĩa vụ cơ bản...",
                                        "Quốc hội", "2015-06-19", "https://thuvienphapluat.vn")

  const ResponseWarnings: seq<string> :=
    ["Thông tin chỉ mang tính tham khảo", "Cần xác minh với văn bản pháp luật mới nhất"]

  /** `generate_legal_response`; a domain or region outside the tables would
      raise `KeyError`, and its only caller validates both first. */
  function GenerateLegalResponse(question: string, domain: string, region: string): (r: LegalResponse)
    requires domain in ApiDomains && region in Regions
    ensures r.confidence == 0.85 && r.domain == domain
    ensures r.warnings == ResponseWarnings
    ensures |r.citations| == 1 && r.citations[0].title == ApiDomains[domain].primaryLaw
    ensures r.content == ResponseContent(question, ApiDomains[domain], Regions[region])
  {
    var info := ApiDomains[domain];
    LegalResponse(ResponseContent(question, info, Regions[region]),
                  [PlaceholderCitation.(title := info.primaryLaw)],
                  0.85, domain, ResponseWarnings)
  }

  /** `process_legal_query`: validation, the override, then the response. */
  method ProcessLegalQuery(query: LegalQuery) returns (r: Result<LegalResponse, HttpError>)
    modifies query
    ensures old(query.domain) !in ApiDomains ==> r == Err(InternalError(InvalidDomain))
    ensures old(query.domain) in ApiDomains && query.region !in Regions ==> r == Err(InternalError(InvalidRegion))
    ensures r.Err? ==> query.domain == old(query.domain)
    ensures old(query.domain) in ApiDomains && query.region in Regions ==>
      query.domain == EffectiveDomain(old(query.domain), FirstOutcome(ApiDomainRules, Lower(query.question)))
      && query.domain in ApiDomains
      && r == Ok(GenerateLegalResponse(query.question, query.domain, query.region))
    ensures query.question == old(query.question) && query.region == old(query.region)
  {
    if query.domain !in ApiDomains {
      return Err(InternalError(InvalidDomain));
    }
    if query.region !in Regions {
      return Err(InternalError(InvalidRegion));
    }
    OverrideDomain(query);
    r := Ok(GenerateLegalResponse(query.question, query.domain, query.region));
  }

  /** The auto-detection step of `process_legal_query`: a detected domain
      replaces the default one, in place. */
  method OverrideDomain(query: LegalQuery)
    requires query.domain in ApiDomains
    modifies query
    ensures query.domain == EffectiveDomain(old(query.domain), FirstOutcome(ApiDomainRules, Lower(query.question)))
    ensures query.domain in ApiDomains
    ensures query.question == old(query.question) && query.region == old(query.region)
  {
    var detected := AutoDetectLegalDomain(query.question);
    if detected.Some? && detected.value != "" && query.domain == "dan_su" {
      query.domain := detected.value;
    }
  }

  // ----------------------------------------------------------------- upload

  /** Python's `s[:200] + "..."` when `s` is longer than 200 characters. */
  function Truncate(s: string): (r: string)
    ensures |s| <= 200 ==> r == s
    ensures |s| > 200 ==> |r| == 203 && r[..200] == s[..200] && r[200..] == "..."
  {
    if |s| > 200 then s[..200] + "..." else s
  }

  /** `extract_text_preview`. */
  function ExtractTextPreview(size: nat, contentType: string): (r: string)
    ensures |r| <= 203
  {
    Truncate("Preview of " + contentType + " document (" + NatToString(size) + " bytes)")
  }

  const AllowedContentTypes: seq<string> :=
    ["application/pdf", "application/vnd.openxmlformats-officedocument.wordprocessingml.document", "text/plain"]

  const MaxUploadSize: nat := 10 * 1024 * 1024

  datatype DocumentUpload = DocumentUpload(filename: string, size: nat, documentType: string,
                                           analysisStatus: string, preview: string)

  /** `upload_legal_document` without the file system: `saveError` is what
      writing the file raises, if anything. */
  function UploadLegalDocument(filename: string, contentType: string, size: nat, saveError: Option<string>)
    : (r: Result<DocumentUpload, HttpError>)
    ensures r.Ok? <==> contentType in AllowedContentTypes && size <= MaxUploadSize && saveError.None?
    ensures r.Err? ==> r.error.status == 500
    ensures r.Ok? ==> r.value == DocumentUpload(filename, size, contentType, "processing",
                                                ExtractTextPreview(size, contentType))
  {
    if contentType !in AllowedContentTypes then
      Err(HttpError(500, "Upload failed: " + ErrorText(HttpError(400, "Unsupported file type. Allowed: PDF, DOCX, TXT"))))
    else if size > MaxUploadSize then
      Err(HttpError(500, "Upload failed: " + ErrorText(HttpError(400, "File size exceeds maximum limit of 10MB"))))
    else if saveError.Some? then
      Err(HttpError(500, "Upload failed: " + saveError.value))
    else
      Ok(DocumentUpload(filename, size, contentType, "processing", ExtractTextPreview(size, contentType)))
  }
}
