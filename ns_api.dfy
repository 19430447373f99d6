/** The nameserver calls of `NsAPI` (namecheap/api/domains/ns.py): for each of
    `create`, `delete`, `update` and `get_info`, the error catalog assembled
    for the call, the request parameters, the message context, and the
    `TypeError` every one of them raises when it calls the client. */
module NsApi {
  import opened Wrappers
  import opened Values
  import opened DomainName

  /** One catalog entry: what an error code means and how to fix it. */
  datatype ErrorInfo = ErrorInfo(explanation: string, fix: string)

  type Catalog = map<string, ErrorInfo>

  const UnknownError := "UNKNOWN_ERROR"

  /** The codes every nameserver call shares. */
  const CommonNsErrors: Catalog := map[
    "2019166" := ErrorInfo("Domain not found", "Verify the domain exists and is spelled correctly"),
    "2016166" := ErrorInfo("Domain is not associated with your account",
                           "Check that the domain is registered with your Namecheap account"),
    "2011177" := ErrorInfo("Nameserver is invalid", "Ensure the nameserver has proper format (e.g., ns1.example.com)"),
    UnknownError := ErrorInfo("Operation failed", "Verify that '{domain_name}' exists and all parameters are correct")
  ]

  /** `{**base, **extra}`: every key of either, the value of `extra` winning. */
  function Overlay(base: Catalog, extra: Catalog): (r: Catalog)
    ensures r.Keys == base.Keys + extra.Keys
    ensures forall code :: code in extra ==> r[code] == extra[code]
    ensures forall code :: code in base && code !in extra ==> r[code] == base[code]
  {
    base + extra
  }

  const CreateErrors: Catalog := map[
    "2011153" := ErrorInfo("Email address is invalid", "Provide a valid email address"),
    "2011163" := ErrorInfo("Phone is invalid", "Provide a valid phone number"),
    "2011178" := ErrorInfo("IP Address is invalid", "Provide a valid IP address in the correct format"),
    "2011280" := ErrorInfo("TLD is invalid", "Verify the TLD is supported and spelled correctly"),
    UnknownError := ErrorInfo("Nameserver creation failed",
                              "Verify that '{domain_name}' exists and all parameters are correct")
  ]

  const DeleteErrors: Catalog := map[
    "3031510" := ErrorInfo("Error deleting nameserver", "There was a problem with the nameserver deletion request"),
    "3031511" := ErrorInfo("Nameserver does not exist", "The specified nameserver does not exist for this domain"),
    UnknownError := ErrorInfo("Nameserver deletion failed",
                              "Verify that '{domain_name}' exists and nameserver '{nameserver}' is valid")
  ]

  const UpdateErrors: Catalog := map[
    "2011153" := ErrorInfo("Nameserver not found", "Verify that the nameserver exists for this domain"),
    "2011154" := ErrorInfo("Nameserver is not valid for this domain", "The nameserver cannot be updated for this domain"),
    "2011155" := ErrorInfo("Invalid IP address", "Provide a valid IP address in the correct format"),
    UnknownError := ErrorInfo("Nameserver update failed",
                              "Verify that '{domain_name}' exists and all parameters are correct")
  ]

  const GetInfoErrors: Catalog := map[
    UnknownError := ErrorInfo("Failed to get nameserver information",
                              "Verify that '{domain_name}' exists and nameserver '{nameserver}' is valid")
  ]

  /** The four nameserver calls. */
  datatype NsCall = Create | Delete | Update | GetInfo

  /** The entries a call adds to, or replaces in, the common catalog. */
  function CallErrors(call: NsCall): (r: Catalog)
    ensures UnknownError in r
  {
    match call
    case Create => CreateErrors
    case Delete => DeleteErrors
    case Update => UpdateErrors
    case GetInfo => GetInfoErrors
  }

  /** The catalog a call would hand to the request: every common code is kept,
      each keeping its common meaning unless the call redefines it, and
      UNKNOWN_ERROR always carries the call's own entry. */
  function ErrorCatalog(call: NsCall): (r: Catalog)
    ensures r.Keys == CommonNsErrors.Keys + CallErrors(call).Keys
    ensures forall code :: code in CallErrors(call) ==> r[code] == CallErrors(call)[code]
    ensures forall code :: code in CommonNsErrors && code !in CallErrors(call) ==> r[code] == CommonNsErrors[code]
    ensures r[UnknownError] != CommonNsErrors[UnknownError]
  {
    assert CallErrors(call)[UnknownError].explanation != CommonNsErrors[UnknownError].explanation;
    Overlay(CommonNsErrors, CallErrors(call))
  }

  /** The catalogs are per call: code 2011153 is an invalid email address for
      `create` ... */
  lemma CreateKnows2011153AsEmail()
    ensures "2011153" in ErrorCatalog(Create)
    ensures ErrorCatalog(Create)["2011153"].explanation == "Email address is invalid"
  {
    assert "2011153" in CreateErrors;
  }

  /** ... but a missing nameserver for `update`. */
  lemma UpdateKnows2011153AsMissing()
    ensures "2011153" in ErrorCatalog(Update)
    ensures ErrorCatalog(Update)["2011153"].explanation == "Nameserver not found"
  {
    assert "2011153" in UpdateErrors;
  }

  /** `delete` and `get_info` know no code 2011153. */
  lemma UnknownToDeleteAndGetInfo()
    ensures "2011153" !in ErrorCatalog(Delete) && "2011153" !in ErrorCatalog(GetInfo)
  {
    assert "2011153" !in DeleteErrors.Keys + CommonNsErrors.Keys;
    assert "2011153" !in GetInfoErrors.Keys + CommonNsErrors.Keys;
  }

  /** SLD, TLD and Nameserver, shared by every call. */
  function NameserverParams(domainName: string, nameserver: string): (r: Dict)
    ensures r.Keys == {"SLD", "TLD", "Nameserver"}
    ensures r["SLD"] == VStr(SplitDomainName(domainName).0) && r["TLD"] == VStr(SplitDomainName(domainName).1)
    ensures r["Nameserver"] == VStr(nameserver)
  {
    var (sld, tld) := SplitDomainName(domainName);
    map["SLD" := VStr(sld), "TLD" := VStr(tld), "Nameserver" := VStr(nameserver)]
  }

  /** `create`: the shared keys and `IP`. */
  function CreateParams(domainName: string, nameserver: string, ip: string): (r: Dict)
    ensures r.Keys == {"SLD", "TLD", "Nameserver", "IP"}
    ensures forall key :: key in NameserverParams(domainName, nameserver) ==> r[key] == NameserverParams(domainName, nameserver)[key]
    ensures r["IP"] == VStr(ip)
  {
    var (sld, tld) := SplitDomainName(domainName);
    map["SLD" := VStr(sld), "TLD" := VStr(tld), "Nameserver" := VStr(nameserver), "IP" := VStr(ip)]
  }

  /** `delete`: exactly the shared keys. */
  function DeleteParams(domainName: string, nameserver: string): (r: Dict)
    ensures r == NameserverParams(domainName, nameserver)
  {
    var (sld, tld) := SplitDomainName(domainName);
    map["SLD" := VStr(sld), "TLD" := VStr(tld), "Nameserver" := VStr(nameserver)]
  }

  /** `update`: the shared keys, `OldIP` and the new `IP`. */
  function UpdateParams(domainName: string, nameserver: string, oldIp: string, newIp: string): (r: Dict)
    ensures r.Keys == {"SLD", "TLD", "Nameserver", "OldIP", "IP"}
    ensures forall key :: key in NameserverParams(domainName, nameserver) ==> r[key] == NameserverParams(domainName, nameserver)[key]
    ensures r["OldIP"] == VStr(oldIp) && r["IP"] == VStr(newIp)
  {
    var (sld, tld) := SplitDomainName(domainName);
    map["SLD" := VStr(sld), "TLD" := VStr(tld), "Nameserver" := VStr(nameserver),
        "OldIP" := VStr(oldIp), "IP" := VStr(newIp)]
  }

  /** `get_info`: exactly the shared keys. */
  function GetInfoParams(domainName: string, nameserver: string): (r: Dict)
    ensures r == NameserverParams(domainName, nameserver)
  {
    var (sld, tld) := SplitDomainName(domainName);
    map["SLD" := VStr(sld), "TLD" := VStr(tld), "Nameserver" := VStr(nameserver)]
  }

  /** `Client._make_request` takes the command and, optionally, the parameters. */
  const MakeRequestPositionals := 2

  /** Each call passes the command, the parameters, the catalog and the context. */
  const NsCallPositionals := 4

  /** The outcome of a call, given `send`, what the request would have given:
      calling `_make_request` with more positional arguments than it takes
      raises `TypeError` before any request is built, so every nameserver
      call raises `TypeError` and the catalog and context are never used. */
  function CallOutcome(call: NsCall, send: Result<Dict, Error>): (r: Result<Dict, Error>)
    ensures r == Err(TypeError)
  {
    if NsCallPositionals > MakeRequestPositionals then Err(TypeError) else send
  }

  /** The values the catalog's `{domain_name}` and `{nameserver}` refer to;
      the same for every call. */
  function ErrorContext(domainName: string, nameserver: string): (r: map<string, string>)
    ensures r.Keys == {"domain_name", "nameserver"}
    ensures r["domain_name"] == domainName && r["nameserver"] == nameserver
  {
    map["domain_name" := domainName, "nameserver" := nameserver]
  }
}
