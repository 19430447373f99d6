/** `UsersAPI.get_pricing` (namecheap/api/users/base.py): the product type,
    category and action are checked in that order, and the optional values are
    added only when given. */
module UsersApi {
  import opened Wrappers
  import opened Text
  import opened Values

  const ProductTypes := ["DOMAIN", "SSLCERTIFICATE", "WHOISGUARD"]
  const ProductCategories := ["REGISTER", "RENEW", "REACTIVATE", "TRANSFER", "WHOISGUARD"]
  const ActionNames := ["REGISTER", "RENEW", "REACTIVATE", "TRANSFER", "WHOISGUARD"]
  /** The messages render the option lists as Python prints them. */
  const ProductTypeMessage := "product_type must be one of ['DOMAIN', 'SSLCERTIFICATE', 'WHOISGUARD']"
  const ProductCategoryMessage := "product_category must be one of ['REGISTER', 'RENEW', 'REACTIVATE', 'TRANSFER', 'WHOISGUARD']"
  const ActionNameMessage := "action_name must be one of ['REGISTER', 'RENEW', 'REACTIVATE', 'TRANSFER', 'WHOISGUARD']"

  /** The product names may be given as a list or as one text. */
  datatype ProductNames = NameList(names: seq<string>) | NameText(text: string)

  /** Python truthiness of the product names: a non-empty list or text. */
  predicate GivenNames(p: Option<ProductNames>) {
    match p
    case None => false
    case Some(NameList(names)) => names != []
    case Some(NameText(text)) => text != ""
  }

  /** The `ProductName` value: a list comma-joined in order, a text as it is. */
  function ProductNameText(p: ProductNames): string {
    match p
    case NameList(names) => Join(",", names)
    case NameText(text) => text
  }

  /** The validation error `get_pricing` raises first, if any. */
  function PricingProblem(productType: string, productCategory: Option<string>, actionName: Option<string>)
    : Option<Error>
  {
    if productType !in ProductTypes then Some(ValueError(ProductTypeMessage))
    else if Filled(productCategory) && productCategory.value !in ProductCategories then Some(ValueError(ProductCategoryMessage))
    else if Filled(actionName) && actionName.value !in ActionNames then Some(ValueError(ActionNameMessage))
    else None
  }

  /** `get_pricing`. */
  function GetPricingParams(productType: string, productCategory: Option<string>, promotionCode: Option<string>,
                            actionName: Option<string>, productName: Option<ProductNames>): (r: Result<Dict, Error>)
    ensures r.Ok? <==> PricingProblem(productType, productCategory, actionName).None?
    ensures r.Err? ==> r.error == PricingProblem(productType, productCategory, actionName).value
    ensures r.Ok? ==>
              && r.value.Keys == {"ProductType"}
                                 + (if Filled(productCategory) then {"ProductCategory"} else {})
                                 + (if Filled(actionName) then {"ActionName"} else {})
                                 + (if Filled(promotionCode) then {"PromotionCode"} else {})
                                 + (if GivenNames(productName) then {"ProductName"} else {})
              && r.value["ProductType"] == VStr(productType)
              && (Filled(productCategory) ==> r.value["ProductCategory"] == VStr(productCategory.value))
              && (Filled(actionName) ==> r.value["ActionName"] == VStr(actionName.value))
              && (Filled(promotionCode) ==> r.value["PromotionCode"] == VStr(promotionCode.value))
              && (GivenNames(productName) ==> r.value["ProductName"] == VStr(ProductNameText(productName.value)))
  {
    if productType !in ProductTypes then Err(ValueError(ProductTypeMessage))
    else
      var params := map["ProductType" := VStr(productType)];
      if Filled(productCategory) && productCategory.value !in ProductCategories then Err(ValueError(ProductCategoryMessage))
      else
        var params := if Filled(productCategory) then params["ProductCategory" := VStr(productCategory.value)] else params;
        if Filled(actionName) && actionName.value !in ActionNames then Err(ValueError(ActionNameMessage))
        else
          var params := if Filled(actionName) then params["ActionName" := VStr(actionName.value)] else params;
          var params := if Filled(promotionCode) then params["PromotionCode" := VStr(promotionCode.value)] else params;
          Ok(if GivenNames(productName) then params["ProductName" := VStr(ProductNameText(productName.value))] else params)
  }

  /** The product type is checked before anything else: an unknown type fails
      with its own message whatever the other arguments are. */
  lemma ProductTypeCheckedFirst(productType: string, productCategory: Option<string>, promotionCode: Option<string>,
                                actionName: Option<string>, productName: Option<ProductNames>)
    requires productType !in ProductTypes
    ensures GetPricingParams(productType, productCategory, promotionCode, actionName, productName)
            == Err(ValueError(ProductTypeMessage))
  {
  }

  /** A list of product names without commas is sent so that splitting the
      `ProductName` value at commas gives the list back, in order. */
  lemma ProductNameListRoundTrip(names: seq<string>)
    requires names != []
    requires forall k :: 0 <= k < |names| ==> ',' !in names[k]
    ensures Split(ProductNameText(NameList(names)), ',') == names
  {
    SplitJoin(names, ',');
  }

  /** The request `check_with_pricing` makes (DOMAIN, REGISTER, a list of TLDs)
      always passes validation. */
  lemma DomainRegisterAccepted(promotionCode: Option<string>, productName: Option<ProductNames>)
    ensures GetPricingParams("DOMAIN", Some("REGISTER"), promotionCode, None, productName).Ok?
  {
    assert ProductTypes[0] == "DOMAIN";
    assert ProductCategories[0] == "REGISTER";
  }

  /** `change_password`: the old and the new password. */
  function ChangePasswordParams(oldPassword: string, newPassword: string): (r: Dict)
    ensures r.Keys == {"OldPassword", "NewPassword"}
    ensures r["OldPassword"] == VStr(oldPassword) && r["NewPassword"] == VStr(newPassword)
  {
    map["OldPassword" := VStr(oldPassword), "NewPassword" := VStr(newPassword)]
  }
}
