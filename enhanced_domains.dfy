/** The availability-and-pricing merge of `EnhancedDomainsAPI`
    (namecheap/enhanced/domains.py). `check_with_pricing` checks the domains,
    collects their TLDs, asks for the TLD prices, builds a price table and
    merges it into the check results; `search_available` checks a keyword
    under several TLDs and keeps the available results. The two API responses
    are inputs, and `float()` of a price text is the parameter `parseFloat`
    (`None` where Python raises `ValueError`). */
module EnhancedDomains {
  import opened Wrappers
  import opened Text
  import opened Values
  import opened Seqs
  import opened DomainName
  import DomainsApi

  // ---------------------------------------------------------------------------
  // TLDs of the checked domains
  // ---------------------------------------------------------------------------

  /** `"." + domain.split(".", 1)[1]`; `IndexError` for a domain without a dot. */
  function TldOf(domain: string): (r: Result<string, Error>)
    ensures r.Ok? <==> '.' in domain
    ensures r.Err? ==> r.error == IndexError
    ensures r.Ok? ==> r.value == "." + SplitDomainName(domain).1
  {
    match AfterFirstDot(domain)
    case None => Err(IndexError)
    case Some(rest) => Ok("." + rest)
  }

  /** The TLD set of `check_with_pricing`, or the error of its first dotless domain. */
  function TldSet(domains: seq<string>): Result<set<string>, Error> {
    if domains == [] then Ok({})
    else
      var n := |domains| - 1;
      match TldSet(domains[..n])
      case Err(e) => Err(e)
      case Ok(tlds) =>
        match TldOf(domains[n])
        case Err(e) => Err(e)
        case Ok(tld) => Ok(tlds + {tld})
  }

  /** The TLD collection succeeds exactly when every domain has a dot, and
      fails with `IndexError` otherwise. */
  lemma {:induction false} TldSetSucceedsIff(domains: seq<string>)
    ensures TldSet(domains).Ok? <==> forall k :: 0 <= k < |domains| ==> '.' in domains[k]
    ensures TldSet(domains).Err? ==> TldSet(domains).error == IndexError
  {
    if domains != [] {
      var n := |domains| - 1;
      TldSetSucceedsIff(domains[..n]);
      assert forall k :: 0 <= k < n ==> domains[..n][k] == domains[k];
    }
  }

  /** On success the set holds "." plus the text after the first dot of each
      domain, and nothing else. */
  lemma {:induction false} TldSetMembers(domains: seq<string>, t: string)
    requires TldSet(domains).Ok?
    ensures t in TldSet(domains).value <==> exists k :: TldAt(domains, k, t)
  {
    if domains != [] {
      var n := |domains| - 1;
      var prev := domains[..n];
      assert TldSet(prev).Ok? && TldOf(domains[n]).Ok?;
      TldSetMembers(prev, t);
      var tld := TldOf(domains[n]).value;
      assert TldSet(domains).value == TldSet(prev).value + {tld};
      if t in TldSet(domains).value {
        if t !in TldSet(prev).value {
          assert TldAt(domains, n, t);
        } else {
          var k :| TldAt(prev, k, t);
          assert prev[k] == domains[k];
          assert TldAt(domains, k, t);
        }
      } else {
        forall k | 0 <= k < |domains|
          ensures !TldAt(domains, k, t)
        {
          if k < n {
            assert prev[k] == domains[k];
            assert !TldAt(prev, k, t);
          }
        }
      }
    }
  }

  /** `t` is "." plus the text after the first dot of domain `k`. */
  predicate TldAt(domains: seq<string>, k: int, t: string) {
    0 <= k < |domains| && t == "." + SplitDomainName(domains[k]).1
  }

  lemma {:induction false} TldSetFailurePersists(domains: seq<string>, n: nat)
    requires n <= |domains| && TldSet(domains[..n]).Err?
    ensures TldSet(domains) == TldSet(domains[..n])
    decreases |domains| - n
  {
    if n < |domains| {
      assert domains[..n + 1][..n] == domains[..n];
      TldSetFailurePersists(domains, n + 1);
    } else {
      assert domains[..n] == domains;
    }
  }

  /** The first loop of `check_with_pricing`. */
  method CollectTlds(domains: seq<string>) returns (r: Result<set<string>, Error>)
    ensures r == TldSet(domains)
  {
    var tlds: set<string> := {};
    for i := 0 to |domains|
      invariant TldSet(domains[..i]) == Ok(tlds)
    {
      PrefixOfPrefix(domains, i + 1);
      var domain := domains[i];
      if '.' !in domain {
        TldSetFailurePersists(domains, i + 1);
        return Err(IndexError);
      }
      var tld := "." + domain[IndexOf(domain, '.') + 1..];
      tlds := tlds + {tld};
    }
    assert domains[..|domains|] == domains;
    r := Ok(tlds);
  }

  // ---------------------------------------------------------------------------
  // The price table
  // ---------------------------------------------------------------------------

  /** The price a product entry contributes: a text goes through `float()`,
      with 0 where that fails; any other value is kept. */
  function PriceValue(price: Value, parseFloat: string -> Option<real>): (r: Value)
    ensures price.VStr? && parseFloat(price.s).Some? ==> r == VReal(parseFloat(price.s).value)
    ensures price.VStr? && parseFloat(price.s).None? ==> r == VInt(0)
    ensures !price.VStr? ==> r == price
  {
    match price
    case VStr(s) => if parseFloat(s).Some? then VReal(parseFloat(s).value) else VInt(0)
    case _ => price
  }

  /** Whether a product entry is used: a dict with `ProductName` and `Price`. */
  predicate IsProduct(p: Value) {
    p.VMap? && "ProductName" in p.fields && "Price" in p.fields
  }

  /** The products listed in a pricing response, a single one made a list. */
  function Products(pricing: Dict): seq<Value> {
    if "ProductPricing" in pricing then AsList(pricing["ProductPricing"]) else []
  }

  /** The price table, keyed by product name; later entries overwrite earlier
      ones. Only string names can ever be looked up with a TLD, so other
      hashable names are left out of the table; a list or dict name is
      unhashable and raises `TypeError`. */
  function PriceTable(products: seq<Value>, parseFloat: string -> Option<real>): Result<map<string, Value>, Error> {
    if products == [] then Ok(map[])
    else
      var n := |products| - 1;
      match PriceTable(products[..n], parseFloat)
      case Err(e) => Err(e)
      case Ok(table) =>
        AddProductSpec(table, products[n], parseFloat)
  }

  /** One product's effect on the table. */
  function AddProductSpec(table: map<string, Value>, p: Value, parseFloat: string -> Option<real>): Result<map<string, Value>, Error> {
    if !IsProduct(p) then Ok(table)
    else
      match p.fields["ProductName"]
      case VStr(name) => Ok(table[name := PriceValue(p.fields["Price"], parseFloat)])
      case VList(_) => Err(TypeError)
      case VMap(_) => Err(TypeError)
      case _ => Ok(table)
  }

  /** The body of the table loop of `check_with_pricing`. */
  method AddProduct(table: map<string, Value>, product: Value, parseFloat: string -> Option<real>)
    returns (r: Result<map<string, Value>, Error>)
    ensures r == AddProductSpec(table, product, parseFloat)
  {
    r := Ok(table);
    if product.VMap? && "ProductName" in product.fields && "Price" in product.fields {
      var tld := product.fields["ProductName"];
      var price := product.fields["Price"];
      if price.VStr? {
        var parsed := parseFloat(price.s);
        price := if parsed.Some? then VReal(parsed.value) else VInt(0);
      }
      match tld {
        case VStr(name) => r := Ok(table[name := price]);
        case VList(_) => r := Err(TypeError);
        case VMap(_) => r := Err(TypeError);
        case _ =>
      }
    }
  }

  /** A name's entry in the table comes from the LAST product with that name. */
  lemma {:induction false} PriceTableLastWins(products: seq<Value>, parseFloat: string -> Option<real>, name: string)
    requires PriceTable(products, parseFloat).Ok?
    ensures var table := PriceTable(products, parseFloat).value;
            && (name in table <==> exists k :: 0 <= k < |products| && IsProduct(products[k])
                                                && products[k].fields["ProductName"] == VStr(name))
            && forall k :: 0 <= k < |products| && IsProduct(products[k]) && products[k].fields["ProductName"] == VStr(name)
                           && (forall m :: k < m < |products| && IsProduct(products[m]) ==>
                                 products[m].fields["ProductName"] != VStr(name)) ==>
                 table[name] == PriceValue(products[k].fields["Price"], parseFloat)
  {
    if products != [] {
      var n := |products| - 1;
      PriceTableLastWins(products[..n], parseFloat, name);
      assert forall k :: 0 <= k < n ==> products[..n][k] == products[k];
    }
  }

  lemma {:induction false} PriceTableFailurePersists(products: seq<Value>, n: nat, parseFloat: string -> Option<real>)
    requires n <= |products| && PriceTable(products[..n], parseFloat).Err?
    ensures PriceTable(products, parseFloat) == PriceTable(products[..n], parseFloat)
    decreases |products| - n
  {
    if n < |products| {
      assert products[..n + 1][..n] == products[..n];
      PriceTableFailurePersists(products, n + 1, parseFloat);
    } else {
      assert products[..n] == products;
    }
  }

  /** The second loop of `check_with_pricing`. */
  method BuildPriceTable(pricing: Dict, parseFloat: string -> Option<real>) returns (r: Result<map<string, Value>, Error>)
    ensures r == PriceTable(Products(pricing), parseFloat)
  {
    var tldPricing: map<string, Value> := map[];
    var products: seq<Value> := [];
    if "ProductPricing" in pricing {
      products := AsList(pricing["ProductPricing"]);
    }
    for i := 0 to |products|
      invariant PriceTable(products[..i], parseFloat) == Ok(tldPricing)
    {
      PrefixOfPrefix(products, i + 1);
      var next := AddProduct(tldPricing, products[i], parseFloat);
      if next.Err? {
        PriceTableFailurePersists(products, i + 1, parseFloat);
        return Err(next.error);
      }
      tldPricing := next.value;
    }
    assert products[..|products|] == products;
    r := Ok(tldPricing);
  }

  // ---------------------------------------------------------------------------
  // The merge
  // ---------------------------------------------------------------------------

  /** One merged result: a dict with exactly Domain, Available, IsPremiumName and Price. */
  datatype PricedDomain = PricedDomain(domain: Value, available: Value, isPremiumName: Value, price: Value)

  /** The TLD the merge looks a result up under: "." plus the text after the
      first dot, or "" for a name without one. `"." in domain` on a list tests
      its elements and on a dict its keys, and `.split` then fails; on None,
      numbers and bools the `in` itself raises. */
  function ResultTld(domain: Value): (r: Result<string, Error>)
    ensures domain.VStr? ==> r == Ok(if '.' in domain.s then "." + SplitDomainName(domain.s).1 else "")
    ensures domain.VList? ==> (r.Err? <==> VStr(".") in domain.items)
    ensures domain.VMap? ==> (r.Err? <==> "." in domain.fields)
    ensures (domain.VList? || domain.VMap?) ==> r == Err(AttributeError) || r == Ok("")
    ensures r == Err(TypeError) <==> !(domain.VStr? || domain.VList? || domain.VMap?)
  {
    match domain
    case VStr(s) => if '.' in s then Ok("." + s[IndexOf(s, '.') + 1..]) else Ok("")
    case VList(items) => if VStr(".") in items then Err(AttributeError) else Ok("")
    case VMap(fields) => if "." in fields then Err(AttributeError) else Ok("")
    case _ => Err(TypeError)
  }

  /** `premium_price > 0`; comparing None, a text, a list or a dict with 0 raises `TypeError`. */
  function IsPositive(v: Value): (r: Result<bool, Error>)
    ensures r.Ok? <==> v.VInt? || v.VBool? || v.VReal?
    ensures r.Ok? ==> (r.value <==> (v.VInt? && v.i > 0) || (v.VBool? && v.b) || (v.VReal? && v.r > 0.0))
  {
    match v
    case VInt(i) => Ok(i > 0)
    case VBool(b) => Ok(b)
    case VReal(x) => Ok(x > 0.0)
    case _ => Err(TypeError)
  }

  /** The merged entry for one check result. */
  function MergeEntry(info: Dict, table: map<string, Value>): (r: Result<PricedDomain, Error>)
    ensures r.Ok? ==>
              var isPremium := Get(info, "IsPremiumName", VBool(false));
              var premium := Get(info, "PremiumRegistrationPrice", VReal(0.0));
              var domain := Get(info, "Domain", VStr(""));
              && r.value.domain == domain
              && r.value.available == Get(info, "Available", VBool(false))
              && r.value.isPremiumName == isPremium
              && ResultTld(domain).Ok?
              && (Truthy(isPremium) ==> IsPositive(premium).Ok?)
              && r.value.price == if Truthy(isPremium) && IsPositive(premium).value then premium
                                  else (if ResultTld(domain).value in table then table[ResultTld(domain).value] else VReal(0.0))
  {
    var domain := Get(info, "Domain", VStr(""));
    match ResultTld(domain)
    case Err(e) => Err(e)
    case Ok(tld) =>
      var regular := if tld in table then table[tld] else VReal(0.0);
      var isPremium := Get(info, "IsPremiumName", VBool(false));
      var premium := Get(info, "PremiumRegistrationPrice", VReal(0.0));
      if !Truthy(isPremium) then Ok(PricedDomain(domain, Get(info, "Available", VBool(false)), isPremium, regular))
      else
        match IsPositive(premium)
        case Err(e) => Err(e)
        case Ok(positive) =>
          Ok(PricedDomain(domain, Get(info, "Available", VBool(false)), isPremium, if positive then premium else regular))
  }

  /** The check results a `domains.check` response lists, a single one made a list. */
  function CheckResults(availability: Dict): seq<Value> {
    AsList(Get(availability, "DomainCheckResult", VList([])))
  }

  /** The merge loop: one entry per dict result, in order. */
  function Merge(results: seq<Value>, table: map<string, Value>): Result<seq<PricedDomain>, Error> {
    if results == [] then Ok([])
    else
      var n := |results| - 1;
      match Merge(results[..n], table)
      case Err(e) => Err(e)
      case Ok(merged) =>
        if !results[n].VMap? then Ok(merged)
        else
          match MergeEntry(results[n].fields, table)
          case Err(e) => Err(e)
          case Ok(entry) => Ok(merged + [entry])
  }

  /** On success the merge has one entry per dict check result, in order, each
      merged from that result; non-dict results are skipped. */
  lemma {:induction false} MergeShape(results: seq<Value>, table: map<string, Value>)
    requires Merge(results, table).Ok?
    ensures |Merge(results, table).value| == |Dicts(results)|
    ensures forall j :: 0 <= j < |Dicts(results)| ==>
              MergeEntry(Dicts(results)[j], table) == Ok(Merge(results, table).value[j])
  {
    if results != [] {
      MergeShape(results[..|results| - 1], table);
    }
  }

  lemma {:induction false} MergeFailurePersists(results: seq<Value>, n: nat, table: map<string, Value>)
    requires n <= |results| && Merge(results[..n], table).Err?
    ensures Merge(results, table) == Merge(results[..n], table)
    decreases |results| - n
  {
    if n < |results| {
      assert results[..n + 1][..n] == results[..n];
      MergeFailurePersists(results, n + 1, table);
    } else {
      assert results[..n] == results;
    }
  }

  /** The merge loop of `check_with_pricing`. */
  method MergePricing(availability: Dict, table: map<string, Value>) returns (r: Result<seq<PricedDomain>, Error>)
    ensures r == Merge(CheckResults(availability), table)
  {
    var merged: seq<PricedDomain> := [];
    var domainResults := Get(availability, "DomainCheckResult", VList([]));
    var results := AsList(domainResults);
    for i := 0 to |results|
      invariant Merge(results[..i], table) == Ok(merged)
    {
      PrefixOfPrefix(results, i + 1);
      var domainInfo := results[i];
      if !domainInfo.VMap? {
        continue;
      }
      var info := domainInfo.fields;
      var domain := Get(info, "Domain", VStr(""));
      var tld := ResultTld(domain);
      if tld.Err? {
        MergeFailurePersists(results, i + 1, table);
        return Err(tld.error);
      }
      var regularPrice := if tld.value in table then table[tld.value] else VReal(0.0);
      var isPremium := Get(info, "IsPremiumName", VBool(false));
      var premiumPrice := Get(info, "PremiumRegistrationPrice", VReal(0.0));
      var finalPrice := regularPrice;
      if Truthy(isPremium) {
        var positive := IsPositive(premiumPrice);
        if positive.Err? {
          MergeFailurePersists(results, i + 1, table);
          return Err(positive.error);
        }
        if positive.value {
          finalPrice := premiumPrice;
        }
      }
      merged := merged + [PricedDomain(domain, Get(info, "Available", VBool(false)), isPremium, finalPrice)];
    }
    assert results[..|results|] == results;
    r := Ok(merged);
  }

  // ---------------------------------------------------------------------------
  // check_with_pricing and search_available
  // ---------------------------------------------------------------------------

  /** What `check_with_pricing` returns under `DomainCheckResult`, given the
      `domains.check` response `availability` and the `users.getPricing`
      response `pricing`; the error of `check` comes first, then that of a
      dotless domain. */
  function CheckWithPricingSpec(domains: seq<string>, availability: Dict, pricing: Dict,
                                parseFloat: string -> Option<real>): Result<seq<PricedDomain>, Error>
  {
    match DomainsApi.CheckParams(domains)
    case Err(e) => Err(e)
    case Ok(_) =>
      match TldSet(domains)
      case Err(e) => Err(e)
      case Ok(_) =>
        match PriceTable(Products(pricing), parseFloat)
        case Err(e) => Err(e)
        case Ok(table) => Merge(CheckResults(availability), table)
  }

  /** `check_with_pricing`; also yields the TLD set sent as `product_name`. */
  method CheckWithPricing(domains: seq<string>, availability: Dict, pricing: Dict, parseFloat: string -> Option<real>)
    returns (tlds: set<string>, r: Result<seq<PricedDomain>, Error>)
    ensures r == CheckWithPricingSpec(domains, availability, pricing, parseFloat)
    ensures r.Ok? ==> TldSet(domains) == Ok(tlds)
  {
    tlds := {};
    var checked := DomainsApi.CheckParams(domains);
    if checked.Err? {
      return tlds, Err(checked.error);
    }
    var collected := CollectTlds(domains);
    if collected.Err? {
      return tlds, Err(collected.error);
    }
    tlds := collected.value;
    var table := BuildPriceTable(pricing, parseFloat);
    if table.Err? {
      return tlds, Err(table.error);
    }
    r := MergePricing(availability, table.value);
  }

  const DefaultTlds := [".com", ".net", ".org", ".info", ".biz"]

  /** The domains `search_available` checks: the keyword under each TLD, in
      order, the five default TLDs when none are given. */
  function SearchDomains(keyword: string, tlds: Option<seq<string>>): (r: seq<string>)
    ensures var used := if tlds.None? || tlds.value == [] then DefaultTlds else tlds.value;
            |r| == |used| && forall k :: 0 <= k < |r| ==> r[k] == keyword + used[k]
  {
    var used := if tlds.None? || tlds.value == [] then DefaultTlds else tlds.value;
    seq(|used|, k requires 0 <= k < |used| => keyword + used[k])
  }

  /** Whether `search_available` keeps a merged entry. */
  predicate Wanted(entry: PricedDomain, includePremium: bool) {
    Truthy(entry.available) && (!Truthy(entry.isPremiumName) || includePremium)
  }

  function Wanteds(entries: seq<PricedDomain>, includePremium: bool): seq<PricedDomain> {
    if entries == [] then []
    else
      var n := |entries| - 1;
      Wanteds(entries[..n], includePremium) + (if Wanted(entries[n], includePremium) then [entries[n]] else [])
  }

  /** The filter keeps exactly the available entries that are not premium or
      are allowed as premium, in their order. */
  lemma {:induction false} WantedsSpec(entries: seq<PricedDomain>, includePremium: bool)
    ensures forall x :: x in Wanteds(entries, includePremium) <==> x in entries && Wanted(x, includePremium)
    ensures |Wanteds(entries, includePremium)| <= |entries|
  {
    if entries != [] {
      var n := |entries| - 1;
      WantedsSpec(entries[..n], includePremium);
      assert entries == entries[..n] + [entries[n]];
    }
  }

  /** Filtering two runs of entries gives the first run's survivors followed
      by the second's: the filter preserves order and multiplicity. */
  lemma {:induction false} WantedsConcat(a: seq<PricedDomain>, b: seq<PricedDomain>, includePremium: bool)
    ensures Wanteds(a + b, includePremium) == Wanteds(a, includePremium) + Wanteds(b, includePremium)
  {
    if b == [] {
      assert a + b == a;
    } else {
      var n := |b| - 1;
      WantedsConcat(a, b[..n], includePremium);
      assert (a + b)[..|a| + n] == a + b[..n];
      assert (a + b)[|a| + n] == b[n];
    }
  }

  /** `search_available`: the entries it returns under `AvailableDomains`. */
  method SearchAvailable(keyword: string, tlds: Option<seq<string>>, includePremium: bool,
                         availability: Dict, pricing: Dict, parseFloat: string -> Option<real>)
    returns (r: Result<seq<PricedDomain>, Error>)
    ensures var checked := CheckWithPricingSpec(SearchDomains(keyword, tlds), availability, pricing, parseFloat);
            && (r.Err? <==> checked.Err?)
            && (r.Err? ==> r.error == checked.error)
            && (r.Ok? ==> r.value == Wanteds(checked.value, includePremium))
  {
    var used := if tlds.None? || tlds.value == [] then DefaultTlds else tlds.value;
    var domainsToCheck := seq(|used|, k requires 0 <= k < |used| => keyword + used[k]);
    var _, results := CheckWithPricing(domainsToCheck, availability, pricing, parseFloat);
    if results.Err? {
      return Err(results.error);
    }
    var entries := results.value;
    var availableDomains: seq<PricedDomain> := [];
    for i := 0 to |entries|
      invariant availableDomains == Wanteds(entries[..i], includePremium)
    {
      PrefixOfPrefix(entries, i + 1);
      var domain := entries[i];
      if Truthy(domain.available) {
        if !Truthy(domain.isPremiumName) || includePremium {
          availableDomains := availableDomains + [domain];
        }
      }
    }
    assert entries[..|entries|] == entries;
    r := Ok(availableDomains);
  }
}
