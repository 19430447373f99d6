/** The parameter builders of `SslAPI` (namecheap/api/ssl/base.py): `get_list`,
    `create`, `get_info`, `parse_csr` and `activate`. */
module SslApi {
  import opened Wrappers
  import opened Values

  const MaxPageSize := 100
  const PageSizeMessage := "Maximum page size is 100"

  /** `get_list`: a page size above 100 is refused; `SortBy` and `ListType`
      are sent only when given (no other check is made on them). */
  function GetListParams(page: int, pageSize: int, sortBy: Option<string>, listType: Option<string>)
    : (r: Result<Dict, Error>)
    ensures r.Err? <==> pageSize > MaxPageSize
    ensures r.Err? ==> r.error == ValueError(PageSizeMessage)
    ensures r.Ok? ==>
              && r.value.Keys == {"Page", "PageSize"} + (if Filled(sortBy) then {"SortBy"} else {})
                                 + (if Filled(listType) then {"ListType"} else {})
              && r.value["Page"] == VInt(page) && r.value["PageSize"] == VInt(pageSize)
              && (Filled(sortBy) ==> r.value["SortBy"] == VStr(sortBy.value))
              && (Filled(listType) ==> r.value["ListType"] == VStr(listType.value))
  {
    if pageSize > MaxPageSize then Err(ValueError(PageSizeMessage))
    else
      var params := map["Page" := VInt(page), "PageSize" := VInt(pageSize)];
      var params := if Filled(sortBy) then params["SortBy" := VStr(sortBy.value)] else params;
      Ok(if Filled(listType) then params["ListType" := VStr(listType.value)] else params)
  }

  /** `create`: `Years` and `Type`, then every extra keyword argument, which
      overrides a key already set. */
  function CreateParams(years: int, certificateType: string, kwargs: Dict): (r: Dict)
    ensures r.Keys == {"Years", "Type"} + kwargs.Keys
    ensures forall key :: key in kwargs ==> r[key] == kwargs[key]
    ensures "Years" !in kwargs ==> r["Years"] == VInt(years)
    ensures "Type" !in kwargs ==> r["Type"] == VStr(certificateType)
  {
    map["Years" := VInt(years), "Type" := VStr(certificateType)] + kwargs
  }

  /** `get_info`: only the certificate id. */
  function GetInfoParams(certificateId: int): (r: Dict)
    ensures r.Keys == {"CertificateID"} && r["CertificateID"] == VInt(certificateId)
  {
    map["CertificateID" := VInt(certificateId)]
  }

  /** `parse_csr`: only the CSR, under the lower-case key `csr` (unlike the
      `CSR` key of `activate`). */
  function ParseCsrParams(csr: string): (r: Dict)
    ensures r.Keys == {"csr"} && r["csr"] == VStr(csr)
    ensures "CSR" !in r
  {
    map["csr" := VStr(csr)]
  }

  /** `activate`: the certificate id, CSR, web server type and approver email,
      then every extra keyword argument, which overrides a key already set. */
  function ActivateParams(certificateId: int, csr: string, webServerType: string, approverEmail: string, kwargs: Dict)
    : (r: Dict)
    ensures r.Keys == {"CertificateID", "CSR", "WebServerType", "ApproverEmail"} + kwargs.Keys
    ensures forall key :: key in kwargs ==> r[key] == kwargs[key]
    ensures "CertificateID" !in kwargs ==> r["CertificateID"] == VInt(certificateId)
    ensures "CSR" !in kwargs ==> r["CSR"] == VStr(csr)
    ensures "WebServerType" !in kwargs ==> r["WebServerType"] == VStr(webServerType)
    ensures "ApproverEmail" !in kwargs ==> r["ApproverEmail"] == VStr(approverEmail)
  {
    map["CertificateID" := VInt(certificateId), "CSR" := VStr(csr), "WebServerType" := VStr(webServerType),
        "ApproverEmail" := VStr(approverEmail)] + kwargs
  }

  /** Without extra arguments `activate` sends exactly its four named values. */
  lemma ActivateWithoutExtras(certificateId: int, csr: string, webServerType: string, approverEmail: string)
    ensures ActivateParams(certificateId, csr, webServerType, approverEmail, map[]) ==
            map["CertificateID" := VInt(certificateId), "CSR" := VStr(csr), "WebServerType" := VStr(webServerType),
                "ApproverEmail" := VStr(approverEmail)]
  {
  }
}
