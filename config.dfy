/** The application settings' domain list and the table of Vietnamese legal
    domains. */
module Config {
  import opened Strings

  /** The default value of `LEGAL_DOMAINS`, written part by part. */
  const DefaultLegalDomains: string := "hien_phap" + "," + "dan_su" + "," + "hinh_su" + "," + "lao_dong" + ","
    + "thuong_mai" + "," + "hanh_chinh" + "," + "thue" + "," + "bat_dong_san"

  /** `Settings.legal_domains_list`: the comma-separated parts, each
      stripped. */
  function LegalDomainsList(legalDomains: string): (r: seq<string>)
    ensures |r| == Count(legalDomains, ',') + 1
    ensures forall i | 0 <= i < |r| :: r[i] == Strip(SplitOn(legalDomains, ',')[i])
  {
    StripAll(SplitOn(legalDomains, ','))
  }

  /** A string with no whitespace at either end is its own strip. */
  lemma StripUnchanged(s: string)
    requires s == [] || (!IsSpace(s[0]) && !IsSpace(s[|s| - 1]))
    ensures Strip(s) == s
  {
  }

  /** The entry of `DOMAIN_MAPPING`. */
  datatype DomainInfo = DomainInfo(name: string, nameEn: string, description: string)

  /** The domain codes in the order of `DOMAIN_MAPPING`. */
  const DomainCodes: seq<string> :=
    ["hien_phap", "dan_su", "hinh_su", "lao_dong", "thuong_mai", "hanh_chinh", "thue", "bat_dong_san"]

  /** `VietnameseLegalDomains.DOMAIN_MAPPING`. */
  const DomainMapping: map<string, DomainInfo> := map[
    "hien_phap" := DomainInfo("Hiến pháp", "Constitution",
                              "Luật cơ bản của Nhà nước Cộng hòa xã hội chủ nghĩa Việt Nam"),
    "dan_su" := DomainInfo("Bộ luật Dân sự", "Civil Code", "Các quy định về quan hệ dân sự, tài sản, hợp đồng"),
    "hinh_su" := DomainInfo("Bộ luật Hình sự", "Criminal Code", "Các quy định về tội phạm và hình phạt"),
    "lao_dong" := DomainInfo("Bộ luật Lao động", "Labor Code",
                             "Các quy định về quan hệ lao động, hợp đồng lao động"),
    "thuong_mai" := DomainInfo("Luật Thương mại", "Commercial Law",
                               "Các quy định về hoạt động thương mại, kinh doanh"),
    "hanh_chinh" := DomainInfo("Luật Hành chính", "Administrative Law",
                               "Các quy định về quản lý nhà nước và thủ tục hành chính"),
    "thue" := DomainInfo("Luật Thuế", "Tax Law", "Các quy định về thuế và nghĩa vụ tài chính"),
    "bat_dong_san" := DomainInfo("Luật Bất động sản", "Real Estate Law",
                                 "Các quy định về quyền sở hữu và giao dịch bất động sản")]

  /** `get_all_domains`: every key of the table, once each. */
  function GetAllDomains(): (r: seq<string>)
    ensures forall c :: c in r <==> c in DomainMapping
    ensures forall i, j | 0 <= i < j < |r| :: r[i] != r[j]
  {
    DomainCodes
  }

  /** `get_domain_name`: the English or Vietnamese name of a known code, the
      code itself for an unknown one. */
  function GetDomainName(code: string, language: string): (r: string)
    ensures code !in DomainMapping ==> r == code
    ensures code in DomainMapping && language == "english" ==> r == DomainMapping[code].nameEn
    ensures code in DomainMapping && language != "english" ==> r == DomainMapping[code].name
  {
    if code !in DomainMapping then code
    else if language == "english" then DomainMapping[code].nameEn
    else DomainMapping[code].name
  }

  /** `is_valid_domain`. */
  function IsValidDomain(code: string): (r: bool)
    ensures r <==> code in GetAllDomains()
  {
    code in DomainMapping
  }

  /** Splitting comma-joined comma-free parts gives the parts back, for two
      to eight parts, one appended part at a time. */
  lemma SplitTwo(a0: string, a1: string)
    requires ',' !in a0 && ',' !in a1
    ensures SplitOn(a0 + "," + a1, ',') == [a0, a1]
  {
    SplitLast(a0, ',');
    SplitAppend(a0, ',', a1);
  }

  lemma SplitThree(a0: string, a1: string, a2: string)
    requires ',' !in a0 && ',' !in a1 && ',' !in a2
    ensures SplitOn(a0 + "," + a1 + "," + a2, ',') == [a0, a1, a2]
  {
    SplitTwo(a0, a1);
    SplitAppend(a0 + "," + a1, ',', a2);
  }

  lemma SplitFour(a0: string, a1: string, a2: string, a3: string)
    requires ',' !in a0 && ',' !in a1 && ',' !in a2 && ',' !in a3
    ensures SplitOn(a0 + "," + a1 + "," + a2 + "," + a3, ',') == [a0, a1, a2, a3]
  {
    SplitThree(a0, a1, a2);
    SplitAppend(a0 + "," + a1 + "," + a2, ',', a3);
  }

  lemma SplitFive(a0: string, a1: string, a2: string, a3: string, a4: string)
    requires ',' !in a0 && ',' !in a1 && ',' !in a2 && ',' !in a3 && ',' !in a4
    ensures SplitOn(a0 + "," + a1 + "," + a2 + "," + a3 + "," + a4, ',') == [a0, a1, a2, a3, a4]
  {
    SplitFour(a0, a1, a2, a3);
    SplitAppend(a0 + "," + a1 + "," + a2 + "," + a3, ',', a4);
  }

  lemma SplitSix(a0: string, a1: string, a2: string, a3: string, a4: string, a5: string)
    requires ',' !in a0 && ',' !in a1 && ',' !in a2 && ',' !in a3 && ',' !in a4 && ',' !in a5
    ensures SplitOn(a0 + "," + a1 + "," + a2 + "," + a3 + "," + a4 + "," + a5, ',') == [a0, a1, a2, a3, a4, a5]
  {
    SplitFive(a0, a1, a2, a3, a4);
    SplitAppend(a0 + "," + a1 + "," + a2 + "," + a3 + "," + a4, ',', a5);
  }

  lemma SplitSeven(a0: string, a1: string, a2: string, a3: string, a4: string, a5: string, a6: string)
    requires ',' !in a0 && ',' !in a1 && ',' !in a2 && ',' !in a3 && ',' !in a4 && ',' !in a5 && ',' !in a6
    ensures SplitOn(a0 + "," + a1 + "," + a2 + "," + a3 + "," + a4 + "," + a5 + "," + a6, ',') == [a0, a1, a2, a3, a4, a5, a6]
  {
    SplitSix(a0, a1, a2, a3, a4, a5);
    SplitAppend(a0 + "," + a1 + "," + a2 + "," + a3 + "," + a4 + "," + a5, ',', a6);
  }

  lemma SplitEight(a0: string, a1: string, a2: string, a3: string, a4: string, a5: string, a6: string, a7: string)
    requires ',' !in a0 && ',' !in a1 && ',' !in a2 && ',' !in a3 && ',' !in a4 && ',' !in a5 && ',' !in a6 && ',' !in a7
    ensures SplitOn(a0 + "," + a1 + "," + a2 + "," + a3 + "," + a4 + "," + a5 + "," + a6 + "," + a7, ',') == [a0, a1, a2, a3, a4, a5, a6, a7]
  {
    SplitSeven(a0, a1, a2, a3, a4, a5, a6);
    SplitAppend(a0 + "," + a1 + "," + a2 + "," + a3 + "," + a4 + "," + a5 + "," + a6, ',', a7);
  }

  /** `[p.strip() for p in parts]`. */
  function StripAll(parts: seq<string>): (r: seq<string>)
    ensures |r| == |parts| && forall i | 0 <= i < |r| :: r[i] == Strip(parts[i])
  {
    seq(|parts|, i requires 0 <= i < |parts| => Strip(parts[i]))
  }

  /** A part that starts and ends with a lower-case letter. */
  predicate Plain(s: string)
  {
    s != [] && 'a' <= s[0] <= 'z' && 'a' <= s[|s| - 1] <= 'z'
  }

  lemma StripAllPlain(parts: seq<string>)
    requires forall i | 0 <= i < |parts| :: Plain(parts[i])
    ensures StripAll(parts) == parts
  {
    var r := StripAll(parts);
    forall i | 0 <= i < |parts| ensures r[i] == parts[i] {
      PlainStripped(parts[i]);
    }
  }

  lemma PlainStripped(s: string)
    requires Plain(s)
    ensures Strip(s) == s
  {
    StripUnchanged(s);
  }

  lemma CodesPlain()
    ensures forall i | 0 <= i < |DomainCodes| :: Plain(DomainCodes[i])
  {
  }

  /** The default setting lists exactly the table's domains, in the table's
      order. */
  lemma DefaultDomainsParse()
    ensures LegalDomainsList(DefaultLegalDomains) == GetAllDomains()
  {
    SplitEight("hien_phap", "dan_su", "hinh_su", "lao_dong", "thuong_mai", "hanh_chinh", "thue", "bat_dong_san");
    CodesPlain();
    StripAllPlain(DomainCodes);
  }
}
