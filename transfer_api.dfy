/** The parameter builders of `TransferAPI` (namecheap/api/domains/transfer.py):
    `create`, `get_status`, `update_status` and `get_list`. */
module TransferApi {
  import opened Wrappers
  import opened Values

  /** `create`: the FULL domain name (the SLD/TLD split the code computes is
      never used) and `Years`, `EPPCode` and `PromotionCode` when given, then
      every extra keyword argument, which overrides a key already set. */
  function CreateParams(domainName: string, years: int, eppCode: Option<string>, promotionCode: Option<string>,
                        kwargs: Dict): (r: Dict)
    ensures r.Keys == {"DomainName", "Years"} + (if Filled(eppCode) then {"EPPCode"} else {})
                      + (if Filled(promotionCode) then {"PromotionCode"} else {}) + kwargs.Keys
    ensures forall key :: key in kwargs ==> r[key] == kwargs[key]
    ensures "DomainName" !in kwargs ==> r["DomainName"] == VStr(domainName)
    ensures "Years" !in kwargs ==> r["Years"] == VInt(years)
    ensures Filled(eppCode) && "EPPCode" !in kwargs ==> r["EPPCode"] == VStr(eppCode.value)
    ensures Filled(promotionCode) && "PromotionCode" !in kwargs ==> r["PromotionCode"] == VStr(promotionCode.value)
  {
    var params := map["DomainName" := VStr(domainName), "Years" := VInt(years)];
    var params := if Filled(eppCode) then params["EPPCode" := VStr(eppCode.value)] else params;
    var params := if Filled(promotionCode) then params["PromotionCode" := VStr(promotionCode.value)] else params;
    params + kwargs
  }

  /** Without extra arguments, a transfer of "example.com" sends the whole
      name, dot and TLD included, and no TLD key. */
  lemma CreateSendsFullName()
    ensures var r := CreateParams("example.com", 1, None, None, map[]);
            r.Keys == {"DomainName", "Years"} && r["DomainName"] == VStr("example.com") && "TLD" !in r
  {
  }

  /** `get_status`: only the transfer id. */
  function GetStatusParams(transferId: int): (r: Dict)
    ensures r.Keys == {"TransferID"} && r["TransferID"] == VInt(transferId)
  {
    map["TransferID" := VInt(transferId)]
  }

  function BoolText(b: bool): string {
    if b then "true" else "false"
  }

  /** `update_status`: the transfer id and `Resubmit` as the text "true" or "false". */
  function UpdateStatusParams(transferId: int, resubmit: bool): (r: Dict)
    ensures r.Keys == {"TransferID", "Resubmit"} && r["TransferID"] == VInt(transferId)
    ensures r["Resubmit"] == VStr(BoolText(resubmit))
  {
    map["TransferID" := VInt(transferId), "Resubmit" := VStr(BoolText(resubmit))]
  }

  /** The `Resubmit` text is exactly one of the two words and gives the flag back. */
  lemma ResubmitRoundTrip(transferId: int, resubmit: bool)
    ensures UpdateStatusParams(transferId, resubmit)["Resubmit"].s in {"true", "false"}
    ensures resubmit <==> UpdateStatusParams(transferId, resubmit)["Resubmit"] == VStr("true")
  {
    assert "false" != "true";
  }

  const MaxPageSize := 100
  const PageSizeMessage := "Maximum page size is 100"
  const TransferSortOptions := ["TRANSFERDATE", "TRANSFERDATE_DESC", "DOMAINNAME", "DOMAINNAME_DESC"]
  const TransferListTypes := ["ALL", "INPROGRESS", "CANCELLED", "COMPLETED"]
  /** The messages render the option lists as Python prints them. */
  const SortByMessage := "sort_by must be one of ['TRANSFERDATE', 'TRANSFERDATE_DESC', 'DOMAINNAME', 'DOMAINNAME_DESC']"
  const ListTypeMessage := "list_type must be one of ['ALL', 'INPROGRESS', 'CANCELLED', 'COMPLETED']"

  /** `get_list`: the page size, then the sort column, then the list type are
      checked; on success exactly the four keys are sent. */
  function GetListParams(page: int, pageSize: int, sortBy: string, listType: string): (r: Result<Dict, Error>)
    ensures r.Ok? <==> pageSize <= MaxPageSize && sortBy in TransferSortOptions && listType in TransferListTypes
    ensures pageSize > MaxPageSize ==> r == Err(ValueError(PageSizeMessage))
    ensures pageSize <= MaxPageSize && sortBy !in TransferSortOptions ==> r == Err(ValueError(SortByMessage))
    ensures pageSize <= MaxPageSize && sortBy in TransferSortOptions && listType !in TransferListTypes ==>
              r == Err(ValueError(ListTypeMessage))
    ensures r.Ok? ==>
              && r.value.Keys == {"Page", "PageSize", "SortBy", "ListType"}
              && r.value["Page"] == VInt(page) && r.value["PageSize"] == VInt(pageSize)
              && r.value["SortBy"] == VStr(sortBy) && r.value["ListType"] == VStr(listType)
  {
    if pageSize > MaxPageSize then Err(ValueError(PageSizeMessage))
    else if sortBy !in TransferSortOptions then Err(ValueError(SortByMessage))
    else if listType !in TransferListTypes then Err(ValueError(ListTypeMessage))
    else Ok(map["Page" := VInt(page), "PageSize" := VInt(pageSize), "SortBy" := VStr(sortBy), "ListType" := VStr(listType)])
  }

  /** The defaults (page 1, 20 per page, by transfer date, all transfers) are accepted. */
  lemma GetListDefaultsAccepted()
    ensures GetListParams(1, 20, "TRANSFERDATE", "ALL").Ok?
  {
    assert TransferSortOptions[0] == "TRANSFERDATE";
    assert TransferListTypes[0] == "ALL";
  }
}
