/** The parameter builders of the base domains API
    (namecheap/api/domains/base.py): `check`, `get_list`, `get_contacts`,
    `get_info` and `renew`. Each yields the parameters it passes to the
    request, or the `ValueError` it raises first. */
module DomainsApi {
  import opened Wrappers
  import opened Text
  import opened Values
  import opened DomainName

  const MaxCheckDomains := 50
  const TooManyDomainsMessage := "Maximum of 50 domains can be checked in a single API call"

  /** `check`: at most 50 domains, sent comma-joined as `DomainList`. */
  function CheckParams(domains: seq<string>): (r: Result<Dict, Error>)
    ensures r.Err? <==> |domains| > MaxCheckDomains
    ensures r.Err? ==> r.error == ValueError(TooManyDomainsMessage)
    ensures r.Ok? ==> r.value.Keys == {"DomainList"} && r.value["DomainList"] == VStr(Join(",", domains))
  {
    if |domains| > MaxCheckDomains then Err(ValueError(TooManyDomainsMessage))
    else Ok(map["DomainList" := VStr(Join(",", domains))])
  }

  /** The `DomainList` parameter splits back into the domains, in order. */
  lemma CheckRoundTrip(domains: seq<string>)
    requires 1 <= |domains| <= MaxCheckDomains
    requires forall k :: 0 <= k < |domains| ==> ',' !in domains[k]
    ensures CheckParams(domains).Ok?
    ensures Split(CheckParams(domains).value["DomainList"].s, ',') == domains
  {
    SplitJoin(domains, ',');
  }

  const MaxPageSize := 100
  const PageSizeMessage := "Maximum page size is 100"
  const DomainSortOptions := ["NAME", "NAME_DESC", "EXPIREDATE", "EXPIREDATE_DESC", "CREATEDATE", "CREATEDATE_DESC"]
  const DomainListTypes := ["ALL", "EXPIRING", "EXPIRED"]
  /** The messages render the option lists as Python prints them. */
  const SortByMessage := "sort_by must be one of ['NAME', 'NAME_DESC', 'EXPIREDATE', 'EXPIREDATE_DESC', 'CREATEDATE', 'CREATEDATE_DESC']"
  const ListTypeMessage := "list_type must be one of ['ALL', 'EXPIRING', 'EXPIRED']"

  /** `get_list`: the page size, then the sort column, then the list type are
      checked; `SearchTerm` is sent only when non-empty. */
  function GetListParams(page: int, pageSize: int, sortBy: string, listType: string, searchTerm: Option<string>)
    : (r: Result<Dict, Error>)
    ensures r.Ok? <==> pageSize <= MaxPageSize && sortBy in DomainSortOptions && listType in DomainListTypes
    ensures pageSize > MaxPageSize ==> r == Err(ValueError(PageSizeMessage))
    ensures pageSize <= MaxPageSize && sortBy !in DomainSortOptions ==>
              r == Err(ValueError(SortByMessage))
    ensures pageSize <= MaxPageSize && sortBy in DomainSortOptions && listType !in DomainListTypes ==>
              r == Err(ValueError(ListTypeMessage))
    ensures r.Ok? ==>
              && r.value.Keys == {"Page", "PageSize", "SortBy", "ListType"} + (if Filled(searchTerm) then {"SearchTerm"} else {})
              && r.value["Page"] == VInt(page) && r.value["PageSize"] == VInt(pageSize)
              && r.value["SortBy"] == VStr(sortBy) && r.value["ListType"] == VStr(listType)
              && (Filled(searchTerm) ==> r.value["SearchTerm"] == VStr(searchTerm.value))
  {
    if pageSize > MaxPageSize then Err(ValueError(PageSizeMessage))
    else if sortBy !in DomainSortOptions then Err(ValueError(SortByMessage))
    else if listType !in DomainListTypes then Err(ValueError(ListTypeMessage))
    else
      var params := map["Page" := VInt(page), "PageSize" := VInt(pageSize), "SortBy" := VStr(sortBy), "ListType" := VStr(listType)];
      Ok(if Filled(searchTerm) then params["SearchTerm" := VStr(searchTerm.value)] else params)
  }

  /** The `DomainName`/`TLD` pair of `get_contacts`, `get_info` and `renew`. */
  function NameParams(domainName: string): (r: Dict)
    ensures r.Keys == {"DomainName", "TLD"} && r["DomainName"].VStr? && r["TLD"].VStr?
    ensures '.' !in r["DomainName"].s
    ensures '.' in domainName ==> r["DomainName"].s + "." + r["TLD"].s == domainName
    ensures '.' !in domainName ==> r["DomainName"] == VStr(domainName) && r["TLD"] == VStr("")
  {
    var (sld, tld) := SplitDomainName(domainName);
    map["DomainName" := VStr(sld), "TLD" := VStr(tld)]
  }

  /** `get_contacts`. */
  function GetContactsParams(domainName: string): (r: Dict)
    ensures r == NameParams(domainName)
  {
    var (sld, tld) := SplitDomainName(domainName);
    map["DomainName" := VStr(sld), "TLD" := VStr(tld)]
  }

  /** `get_info`. */
  function GetInfoParams(domainName: string): (r: Dict)
    ensures r == NameParams(domainName)
  {
    var (sld, tld) := SplitDomainName(domainName);
    map["DomainName" := VStr(sld), "TLD" := VStr(tld)]
  }

  /** `renew`: the name pair and `Years`, and `PromotionCode` only when non-empty. */
  function RenewParams(domainName: string, years: int, promotionCode: Option<string>): (r: Dict)
    ensures r.Keys == {"DomainName", "TLD", "Years"} + (if Filled(promotionCode) then {"PromotionCode"} else {})
    ensures r["DomainName"] == NameParams(domainName)["DomainName"] && r["TLD"] == NameParams(domainName)["TLD"]
    ensures r["Years"] == VInt(years)
    ensures Filled(promotionCode) ==> r["PromotionCode"] == VStr(promotionCode.value)
  {
    var (sld, tld) := SplitDomainName(domainName);
    var params := map["DomainName" := VStr(sld), "TLD" := VStr(tld), "Years" := VInt(years)];
    if Filled(promotionCode) then params["PromotionCode" := VStr(promotionCode.value)] else params
  }
}
