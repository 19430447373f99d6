/** The base client of namecheap/base.py: client configuration, request
    parameter assembly, the conversion of a parsed XML element tree into nested
    dictionaries, and the classification of an API response into a result or a
    raised `NamecheapException`.

    The HTTP call and `ET.fromstring` are not modelled: the parse of the response
    text is a parameter (`parseXml`), and so is `float()` (`parseFloat`). */
module ApiClient {
  import opened Wrappers
  import opened Seqs
  import opened Text
  import opened Values

  // ---------------------------------------------------------------------------
  // Configuration and request parameters
  // ---------------------------------------------------------------------------

  const SandboxApiUrl := "https://api.sandbox.namecheap.com/xml.response"
  const ProductionApiUrl := "https://api.namecheap.com/xml.response"

  datatype Config = Config(
    apiUser: string, apiKey: string, username: string, clientIp: string,
    baseUrl: string, debug: bool)

  /** A credential counts as given when it is set and non-empty (`if not self.api_user`). */
  predicate Given(credential: Option<string>) {
    credential.Some? && credential.value != ""
  }

  /** The names listed as missing, in the order the constructor checks them. */
  function MissingCredentials(apiUser: Option<string>, apiKey: Option<string>,
                              username: Option<string>, clientIp: Option<string>): (r: seq<string>)
    ensures r == [] <==> Given(apiUser) && Given(apiKey) && Given(username) && Given(clientIp)
    ensures |r| <= 4
  {
    (if Given(apiUser) then [] else ["api_user (NAMECHEAP_API_USER)"])
    + (if Given(apiKey) then [] else ["api_key (NAMECHEAP_API_KEY)"])
    + (if Given(username) then [] else ["username (NAMECHEAP_USERNAME)"])
    + (if Given(clientIp) then [] else ["client_ip (NAMECHEAP_CLIENT_IP)"])
  }

  const CredentialsHelp := "Please either:\n"
    + "1. Create a .env file in your project directory with these variables, or\n"
    + "2. Set them as environment variables in your shell, or\n"
    + "3. Pass them explicitly when creating the NamecheapClient instance\n\n"
    + "Example .env file:\n"
    + "NAMECHEAP_API_USER=your_username\n"
    + "NAMECHEAP_API_KEY=your_api_key\n"
    + "NAMECHEAP_USERNAME=your_username\n"
    + "NAMECHEAP_CLIENT_IP=your_whitelisted_ip\n"
    + "NAMECHEAP_USE_SANDBOX=True"

  const MissingCredentialsLead := "Missing required Namecheap API credentials: "

  function MissingCredentialsMessage(missing: seq<string>): string {
    MissingCredentialsLead + Join(", ", missing) + ".\n\n" + CredentialsHelp
  }

  /** The constructor's validation of the resolved credentials and its choice of endpoint. */
  function NewConfig(apiUser: Option<string>, apiKey: Option<string>, username: Option<string>,
                     clientIp: Option<string>, sandbox: bool, debug: bool): (r: Result<Config, Error>)
    ensures r.Ok? <==> Given(apiUser) && Given(apiKey) && Given(username) && Given(clientIp)
    ensures r.Err? ==> r.error == ValueError(MissingCredentialsMessage(MissingCredentials(apiUser, apiKey, username, clientIp)))
    ensures r.Ok? ==> r.value.apiUser == apiUser.value && r.value.apiKey == apiKey.value
                      && r.value.username == username.value && r.value.clientIp == clientIp.value
    ensures r.Ok? ==> (r.value.baseUrl == SandboxApiUrl <==> sandbox)
  {
    assert SandboxApiUrl[12] != ProductionApiUrl[12];
    if Given(apiUser) && Given(apiKey) && Given(username) && Given(clientIp) then
      Ok(Config(apiUser.value, apiKey.value, username.value, clientIp.value,
                if sandbox then SandboxApiUrl else ProductionApiUrl, debug))
    else
      Err(ValueError(MissingCredentialsMessage(MissingCredentials(apiUser, apiKey, username, clientIp))))
  }

  /** `_get_base_params`: the four authentication fields. */
  function BaseParams(c: Config): Dict {
    map["ApiUser" := VStr(c.apiUser), "ApiKey" := VStr(c.apiKey),
        "UserName" := VStr(c.username), "ClientIp" := VStr(c.clientIp)]
  }

  /** The query parameters `_make_request` sends: the authentication fields and
      `Command`, overlaid by the caller's parameters (caller keys win). */
  function RequestParams(c: Config, command: string, params: Dict): (r: Dict)
    ensures r.Keys == params.Keys + {"ApiUser", "ApiKey", "UserName", "ClientIp", "Command"}
    ensures forall k :: k in params ==> r[k] == params[k]
    ensures "Command" !in params ==> r["Command"] == VStr(command)
    ensures "ApiUser" !in params ==> r["ApiUser"] == VStr(c.apiUser)
    ensures "ApiKey" !in params ==> r["ApiKey"] == VStr(c.apiKey)
    ensures "UserName" !in params ==> r["UserName"] == VStr(c.username)
    ensures "ClientIp" !in params ==> r["ClientIp"] == VStr(c.clientIp)
  {
    BaseParams(c)["Command" := VStr(command)] + params
  }

  // ---------------------------------------------------------------------------
  // XML element tree to dictionaries (`_element_to_dict`)
  // ---------------------------------------------------------------------------

  /** An element as ElementTree gives it; a namespaced tag is written `{uri}local`. */
  datatype Element = Element(tag: string, attrs: map<string, string>, text: Option<string>, children: seq<Element>)

  const Namespace := "{http://api.namecheap.com/xml.response}"

  /** A tag without its `{uri}` prefix: the text after the first `}`, if any. */
  function LocalName(tag: string): (r: string)
    ensures '}' !in tag ==> r == tag
  {
    if '}' in tag then tag[IndexOf(tag, '}') + 1..] else tag
  }

  lemma LocalNameOfQualified(local: string)
    ensures LocalName(Namespace + local) == local
  {
    var uri := "{http://api.namecheap.com/xml.response";
    assert Namespace + local == uri + ['}'] + local;
    assert '}' !in uri;
    IndexOfAfter(uri, '}', local);
  }

  const TrueWords: set<string> := {"true", "yes", "enabled"}
  const FalseWords: set<string> := {"false", "no", "disabled"}

  /** An attribute value: a true/false word (any case) becomes a bool, anything else stays text. */
  function AttrValue(v: string): (r: Value)
    ensures r.VBool? || r == VStr(v)
    ensures r == VBool(true) <==> Lower(v) in TrueWords
    ensures r == VBool(false) <==> Lower(v) in FalseWords
  {
    if Lower(v) in TrueWords then VBool(true)
    else if Lower(v) in FalseWords then VBool(false)
    else VStr(v)
  }

  /** The value of a leaf's stripped text: an int if all digits, else a bool for
      a true/false word, else the text. */
  function LeafValue(text: string): (r: Value)
    ensures IsDigits(text) ==> r == VInt(DigitsValue(text))
    ensures r.VBool? <==> !IsDigits(text) && Lower(text) in TrueWords + FalseWords
    ensures r.VBool? ==> (r.b <==> Lower(text) in TrueWords)
    ensures r.VStr? <==> !IsDigits(text) && Lower(text) !in TrueWords + FalseWords
    ensures r.VStr? ==> r.s == text
  {
    if IsDigits(text) then VInt(DigitsValue(text))
    else if Lower(text) in TrueWords then VBool(true)
    else if Lower(text) in FalseWords then VBool(false)
    else VStr(text)
  }

  /** The values of the children whose tag is `k`, in document order. */
  function Select(tags: seq<string>, vals: seq<Value>, k: string): seq<Value>
    requires |tags| == |vals|
  {
    if tags == [] then []
    else Select(tags[..|tags| - 1], vals[..|vals| - 1], k)
         + (if tags[|tags| - 1] == k then [vals[|vals| - 1]] else [])
  }

  /** The entry stored under key `k`: the attribute's value and the children's
      values, a single child's value on its own, several collected in a list. */
  function FieldValue(attrs: map<string, string>, k: string, cs: seq<Value>): Value {
    if k in attrs then
      (if cs == [] then AttrValue(attrs[k]) else VList([AttrValue(attrs[k])] + cs))
    else if |cs| == 1 then cs[0]
    else VList(cs)
  }

  /** The dictionary of an element with attributes or children. */
  function Fields(attrs: map<string, string>, tags: seq<string>, vals: seq<Value>): Dict
    requires |tags| == |vals|
  {
    map k | k in attrs.Keys + (set t | t in tags) :: FieldValue(attrs, k, Select(tags, vals, k))
  }

  function ChildTags(e: Element): (tags: seq<string>)
    ensures |tags| == |e.children|
  {
    seq(|e.children|, i requires 0 <= i < |e.children| => LocalName(e.children[i].tag))
  }

  /** The reference meaning of `_element_to_dict`: a leaf (no attributes, no
      children) with non-blank text becomes `{tag: value}`; any other element
      becomes the dictionary of its attributes and children. */
  function ElementValue(e: Element): (r: Value)
    ensures r.VMap?
    decreases e
  {
    var vals := seq(|e.children|, i requires 0 <= i < |e.children| => ElementValue(e.children[i]));
    if e.attrs == map[] && e.children == [] && e.text.Some? && Strip(e.text.value) != "" then
      VMap(map[LocalName(e.tag) := LeafValue(Strip(e.text.value))])
    else
      VMap(Fields(e.attrs, ChildTags(e), vals))
  }

  function ChildValues(e: Element): (vals: seq<Value>)
    ensures |vals| == |e.children|
    ensures forall i :: 0 <= i < |vals| ==> vals[i] == ElementValue(e.children[i])
  {
    seq(|e.children|, i requires 0 <= i < |e.children| => ElementValue(e.children[i]))
  }

  lemma ElementValueFields(e: Element)
    requires e.attrs != map[] || e.children != []
    ensures ElementValue(e) == VMap(Fields(e.attrs, ChildTags(e), ChildValues(e)))
  {
    var vals := seq(|e.children|, i requires 0 <= i < |e.children| => ElementValue(e.children[i]));
    assert vals == ChildValues(e);
  }

  lemma ElementValueCases(e: Element)
    ensures e.attrs == map[] && e.children == [] && e.text.Some? && Strip(e.text.value) != ""
            ==> ElementValue(e) == VMap(map[LocalName(e.tag) := LeafValue(Strip(e.text.value))])
    ensures !(e.attrs == map[] && e.children == [] && e.text.Some? && Strip(e.text.value) != "")
            ==> ElementValue(e) == VMap(Fields(e.attrs, ChildTags(e), ChildValues(e)))
  {
    var vals := seq(|e.children|, i requires 0 <= i < |e.children| => ElementValue(e.children[i]));
    assert vals == ChildValues(e);
  }

  lemma AttributeFields(attrs: map<string, string>)
    ensures Fields(attrs, [], []) == map k | k in attrs.Keys :: AttrValue(attrs[k])
  {
  }

  lemma FieldsEmpty(attrs: map<string, string>, tags: seq<string>, vals: seq<Value>)
    requires |tags| == |vals|
    ensures |Fields(attrs, tags, vals)| == 0 <==> attrs == map[] && tags == []
  {
    var f := Fields(attrs, tags, vals);
    if tags != [] {
      assert tags[0] in f;
    } else if attrs != map[] {
      var k :| k in attrs;
      assert k in f;
    } else {
      assert f == map[];
    }
  }

  /** One step of the loop over the children in `_element_to_dict`. */
  function InsertChild(result: Dict, tag: string, childData: Value): Dict {
    if tag in result then
      if result[tag].VList? then result[tag := VList(result[tag].items + [childData])]
      else result[tag := VList([result[tag], childData])]
    else result[tag := childData]
  }

  lemma {:induction false} SelectContents(tags: seq<string>, vals: seq<Value>, k: string)
    requires |tags| == |vals|
    ensures Select(tags, vals, k) != [] <==> k in tags
    ensures forall x :: x in Select(tags, vals, k) ==> x in vals
  {
    if tags != [] {
      var n := |tags| - 1;
      SelectContents(tags[..n], vals[..n], k);
      assert tags == tags[..n] + [tags[n]];
      assert vals == vals[..n] + [vals[n]];
    }
  }

  lemma SelectAppend(tags: seq<string>, vals: seq<Value>, t: string, v: Value, k: string)
    requires |tags| == |vals|
    ensures Select(tags + [t], vals + [v], k) == Select(tags, vals, k) + (if t == k then [v] else [])
  {
    assert (tags + [t])[..|tags|] == tags;
    assert (vals + [v])[..|vals|] == vals;
  }

  lemma FieldsAt(attrs: map<string, string>, tags: seq<string>, vals: seq<Value>, k: string)
    requires |tags| == |vals|
    ensures k in Fields(attrs, tags, vals) <==> k in attrs || k in tags
    ensures k in Fields(attrs, tags, vals) ==> Fields(attrs, tags, vals)[k] == FieldValue(attrs, k, Select(tags, vals, k))
  {
  }

  /** The entry under the appended child's tag. */
  lemma FieldValueAppend(attrs: map<string, string>, cs: seq<Value>, t: string, v: Value, previous: Dict)
    requires t in previous <==> t in attrs || cs != []
    requires t in previous ==> previous[t] == FieldValue(attrs, t, cs)
    requires forall x :: x in cs ==> x.VMap?
    ensures FieldValue(attrs, t, cs + [v]) == InsertChild(previous, t, v)[t]
  {
    if t in attrs {
      assert [AttrValue(attrs[t])] + cs + [v] == [AttrValue(attrs[t])] + (cs + [v]);
    } else if |cs| == 1 {
      assert cs[0] in cs;
      assert cs + [v] == [cs[0], v];
    }
  }

  /** Folding one more child in leaves the entries of other keys alone. */
  lemma FieldsAppendOther(attrs: map<string, string>, tags: seq<string>, vals: seq<Value>, t: string, v: Value, k: string)
    requires |tags| == |vals| && k != t
    ensures var next := Fields(attrs, tags + [t], vals + [v]);
            var previous := Fields(attrs, tags, vals);
            && (k in next <==> k in previous)
            && (k in next ==> next[k] == previous[k])
  {
    FieldsAt(attrs, tags + [t], vals + [v], k);
    FieldsAt(attrs, tags, vals, k);
    SelectAppend(tags, vals, t, v, k);
  }

  /** Folding one more child in sets the entry of its own tag as `InsertChild` does. */
  lemma FieldsAppendSame(attrs: map<string, string>, tags: seq<string>, vals: seq<Value>, t: string, v: Value)
    requires |tags| == |vals|
    requires forall j :: 0 <= j < |vals| ==> vals[j].VMap?
    ensures t in Fields(attrs, tags + [t], vals + [v])
    ensures Fields(attrs, tags + [t], vals + [v])[t] == InsertChild(Fields(attrs, tags, vals), t, v)[t]
  {
    var previous := Fields(attrs, tags, vals);
    FieldsAt(attrs, tags + [t], vals + [v], t);
    FieldsAt(attrs, tags, vals, t);
    SelectAppend(tags, vals, t, v, t);
    SelectContents(tags, vals, t);
    FieldValueAppend(attrs, Select(tags, vals, t), t, v, previous);
  }

  /** Folding one more child into the dictionary matches the reference meaning. */
  lemma FieldsAppend(attrs: map<string, string>, tags: seq<string>, vals: seq<Value>, t: string, v: Value)
    requires |tags| == |vals|
    requires forall j :: 0 <= j < |vals| ==> vals[j].VMap?
    ensures Fields(attrs, tags + [t], vals + [v]) == InsertChild(Fields(attrs, tags, vals), t, v)
  {
    var next := Fields(attrs, tags + [t], vals + [v]);
    var inserted := InsertChild(Fields(attrs, tags, vals), t, v);
    forall k
      ensures k in next <==> k in inserted
      ensures k in next ==> next[k] == inserted[k]
    {
      if k == t {
        FieldsAppendSame(attrs, tags, vals, t, v);
      } else {
        FieldsAppendOther(attrs, tags, vals, t, v, k);
      }
    }
    assert next.Keys == inserted.Keys;
  }

  /** Converting child `i` and folding it in extends the reference dictionary by that child. */
  lemma ChildStep(e: Element, i: nat)
    requires i < |e.children|
    ensures Fields(e.attrs, ChildTags(e)[..i + 1], ChildValues(e)[..i + 1])
            == InsertChild(Fields(e.attrs, ChildTags(e)[..i], ChildValues(e)[..i]),
                           LocalName(e.children[i].tag), ElementValue(e.children[i]))
  {
    var tags, vals := ChildTags(e), ChildValues(e);
    PrefixStep(tags, i);
    PrefixStep(vals, i);
    FieldsAppend(e.attrs, tags[..i], vals[..i], tags[i], vals[i]);
  }

  /** The loop over an element's attributes in `_element_to_dict`. */
  method AttributeDict(attrs: map<string, string>) returns (result: Dict)
    ensures result == map k | k in attrs.Keys :: AttrValue(attrs[k])
  {
    result := map[];
    var pending := attrs.Keys;
    while pending != {}
      invariant pending <= attrs.Keys
      invariant result == map k | k in attrs.Keys - pending :: AttrValue(attrs[k])
      decreases pending
    {
      var key :| key in pending;
      var value := attrs[key];
      if Lower(value) in TrueWords {
        result := result[key := VBool(true)];
      } else if Lower(value) in FalseWords {
        result := result[key := VBool(false)];
      } else {
        result := result[key := VStr(value)];
      }
      pending := pending - {key};
    }
  }

  /** `_element_to_dict`, as the source computes it: attributes first, then each
      child in turn, then the leaf case when nothing was collected. */
  method ElementToDict(e: Element) returns (r: Value)
    ensures r == ElementValue(e)
    decreases e
  {
    var result := AttributeDict(e.attrs);
    ghost var tags := ChildTags(e);
    ghost var vals := ChildValues(e);
    AttributeFields(e.attrs);
    assert tags[..0] == [] && vals[..0] == [];
    var i := 0;
    while i < |e.children|
      invariant 0 <= i <= |e.children|
      invariant result == Fields(e.attrs, tags[..i], vals[..i])
    {
      var child := e.children[i];
      var childData := ElementToDict(child);
      var tag := LocalName(child.tag);
      ChildStep(e, i);
      if tag in result {
        if result[tag].VList? {
          result := result[tag := VList(result[tag].items + [childData])];
        } else {
          result := result[tag := VList([result[tag], childData])];
        }
      } else {
        result := result[tag := childData];
      }
      i := i + 1;
    }
    assert tags[..i] == tags && vals[..i] == vals;
    FieldsEmpty(e.attrs, tags, vals);
    ElementValueCases(e);
    if e.text.Some? && Strip(e.text.value) != "" && |result| == 0 {
      var text := Strip(e.text.value);
      var value: Value;
      if IsDigits(text) {
        value := VInt(DigitsValue(text));
      } else if Lower(text) in TrueWords {
        value := VBool(true);
      } else if Lower(text) in FalseWords {
        value := VBool(false);
      } else {
        value := VStr(text);
      }
      return VMap(map[LocalName(e.tag) := value]);
    }
    r := VMap(result);
  }

  /** The children whose local tag is `t`, in document order. */
  function ChildrenNamed(cs: seq<Element>, t: string): (r: seq<Element>)
    ensures forall c :: c in r ==> c in cs && LocalName(c.tag) == t
  {
    if cs == [] then []
    else ChildrenNamed(cs[..|cs| - 1], t) + (if LocalName(cs[|cs| - 1].tag) == t then [cs[|cs| - 1]] else [])
  }

  /** The values of a sequence of elements, one each, in order. */
  function ValuesOf(cs: seq<Element>): (vs: seq<Value>)
    ensures |vs| == |cs|
    ensures forall m :: 0 <= m < |cs| ==> vs[m] == ElementValue(cs[m])
  {
    if cs == [] then [] else ValuesOf(cs[..|cs| - 1]) + [ElementValue(cs[|cs| - 1])]
  }

  /** The local tags of a sequence of elements, one each, in order. */
  function TagsOf(cs: seq<Element>): (tags: seq<string>)
    ensures |tags| == |cs|
    ensures forall m :: 0 <= m < |cs| ==> tags[m] == LocalName(cs[m].tag)
  {
    if cs == [] then [] else TagsOf(cs[..|cs| - 1]) + [LocalName(cs[|cs| - 1].tag)]
  }

  lemma ChildSequences(e: Element)
    ensures ChildTags(e) == TagsOf(e.children)
    ensures ChildValues(e) == ValuesOf(e.children)
  {
  }

  /** Selecting tag `t` from the children's tags and values gives the values of
      the children named `t`. */
  lemma {:induction false} SelectIsChildrenNamed(cs: seq<Element>, t: string)
    ensures Select(TagsOf(cs), ValuesOf(cs), t) == ValuesOf(ChildrenNamed(cs, t))
  {
    if cs != [] {
      var n := |cs| - 1;
      SelectIsChildrenNamed(cs[..n], t);
      assert TagsOf(cs)[..n] == TagsOf(cs[..n]);
      assert ValuesOf(cs)[..n] == ValuesOf(cs[..n]);
      var c := cs[n];
      var before := ChildrenNamed(cs[..n], t);
      if LocalName(c.tag) == t {
        assert (before + [c])[..|before|] == before;
      } else {
        assert before + [] == before;
      }
    }
  }

  /** How the children's values are grouped under their tag (base.py:300-315):
      a tag seen once maps to that child's value, a tag seen k >= 2 times to a
      k-element list in document order, and an attribute of the same name comes
      first in the list. */
  lemma ChildGrouping(e: Element, t: string)
    requires e.attrs != map[] || e.children != []
    ensures var named := ChildrenNamed(e.children, t);
            var fields := ElementValue(e).fields;
            && (t !in e.attrs && named == [] ==> t !in fields)
            && (t !in e.attrs && |named| == 1 ==> t in fields && fields[t] == ElementValue(named[0]))
            && (t !in e.attrs && |named| >= 2 ==>
                  t in fields && fields[t].VList? && |fields[t].items| == |named|
                  && forall m :: 0 <= m < |named| ==> fields[t].items[m] == ElementValue(named[m]))
            && (t in e.attrs && named == [] ==> t in fields && fields[t] == AttrValue(e.attrs[t]))
            && (t in e.attrs && named != [] ==>
                  t in fields && fields[t].VList? && |fields[t].items| == |named| + 1
                  && fields[t].items[0] == AttrValue(e.attrs[t])
                  && forall m :: 0 <= m < |named| ==> fields[t].items[m + 1] == ElementValue(named[m]))
  {
    ElementValueFields(e);
    SelectIsChildrenNamed(e.children, t);
    ChildSequences(e);
    SelectContents(ChildTags(e), ChildValues(e), t);
  }

  /** A leaf child is stored as a one-entry dictionary keyed by its own tag
      (base.py:301 with base.py:337): `<R><Count>5</Count></R>` gives
      `{"Count": {"Count": 5}}`. */
  lemma LeafChildIsWrapped(e: Element, t: string, leaf: Element)
    requires t !in e.attrs && ChildrenNamed(e.children, t) == [leaf]
    requires leaf.attrs == map[] && leaf.children == [] && leaf.text.Some? && Strip(leaf.text.value) != ""
    ensures t in ElementValue(e).fields
    ensures ElementValue(e).fields[t] == VMap(map[t := LeafValue(Strip(leaf.text.value))])
  {
    assert leaf in ChildrenNamed(e.children, t);
    ChildGrouping(e, t);
  }

  /** Text is ignored once an element has attributes or children; a leaf with
      blank or no text gives the empty dictionary (base.py:318-339). */
  lemma TextHandling(e: Element)
    ensures e.attrs != map[] || e.children != [] ==> ElementValue(e) == ElementValue(e.(text := None))
    ensures e.attrs == map[] && e.children == [] && (e.text.None? || AllSpace(e.text.value))
            ==> ElementValue(e) == VMap(map[])
  {
    var e' := e.(text := None);
    assert ChildValues(e') == ChildValues(e);
    if e.attrs != map[] || e.children != [] {
      ElementValueFields(e);
      ElementValueFields(e');
    }
  }

  // ---------------------------------------------------------------------------
  // Response classification (`_parse_response`)
  // ---------------------------------------------------------------------------

  /** What `ET.fromstring` makes of the (repaired) response text. */
  datatype ParseOutcome = Parsed(root: Element) | ParseFailed(detail: string)

  const ApiKeyInvalidText := "API Key is invalid or API access has not been enabled"
  const IpNotWhitelistedText := "IP is not in the whitelist"
  const ApiKeyHint := " - Please verify your API key and ensure API access is enabled at https://ap.www.namecheap.com/settings/tools/apiaccess/"
  const IpHint := " - Please whitelist your IP address in your Namecheap API settings"
  const UsernameHint := " - Please check your username is correct"
  const CheckCommand := "namecheap.domains.check"

  /** `xml.replace("</e>", "</Error>")`. */
  function RepairClosingTags(s: string): (r: string)
    ensures !Contains(s, "</e>") ==> r == s
    decreases |s|
  {
    if StartsWith(s, "</e>") then "</Error>" + RepairClosingTags(s[4..])
    else if s == [] then []
    else [s[0]] + RepairClosingTags(s[1..])
  }

  lemma RepairHead(s: string)
    ensures StartsWith(s, "</e>") ==> RepairClosingTags(s)[..8] == "</Error>"
    ensures !StartsWith(s, "</e>") && s != [] ==> RepairClosingTags(s)[0] == s[0]
    ensures s == [] <==> RepairClosingTags(s) == []
  {
  }

  /** A repaired text starting with "/e>" came from a text starting with "/e>". */
  lemma RepairKeepsSlashPrefix(s: string)
    ensures StartsWith(RepairClosingTags(s), "/e>") ==> StartsWith(s, "/e>")
  {
    var r := RepairClosingTags(s);
    RepairHead(s);
    if s != [] && !StartsWith(s, "</e>") {
      RepairHead(s[1..]);
      if s[1..] != [] && !StartsWith(s[1..], "</e>") {
        RepairHead(s[2..]);
        assert s[1..][1..] == s[2..];
      }
    }
  }

  lemma StartsWithCons(c: char, s: string, d: char, p: string)
    ensures StartsWith([c] + s, [d] + p) <==> c == d && StartsWith(s, p)
  {
    if |p| <= |s| {
      var a, b := [c] + s[..|p|], [d] + p;
      assert ([c] + s)[..|p| + 1] == a;
      assert a[0] == c && a[1..] == s[..|p|] && b[0] == d && b[1..] == p;
    }
  }

  /** A text whose first character is not `<`, or whose third is not `e`, does
      not start with "</e>", so the search may move one character on. */
  lemma SkipChar(s: string, k: nat)
    requires k < |s| && (s[k] != '<' || (k + 2 < |s| && s[k + 2] != 'e'))
    ensures Contains(s[k..], "</e>") == Contains(s[k + 1..], "</e>")
  {
    var t := s[k..];
    if |t| >= 4 {
      assert t[..4][0] == t[0] && t[..4][2] == t[2];
    }
    assert t[1..] == s[k + 1..];
  }

  /** Prefixing "</Error>" to a text without "</e>" adds none. */
  lemma ClosingErrorPrefix(rest: string)
    requires !Contains(rest, "</e>")
    ensures !Contains("</Error>" + rest, "</e>")
  {
    var r := "</Error>" + rest;
    assert r[0] == '<' && r[1] == '/' && r[2] == 'E' && r[3] == 'r';
    assert r[4] == 'r' && r[5] == 'o' && r[6] == 'r' && r[7] == '>';
    assert r[0..] == r;
    SkipChar(r, 0);
    SkipChar(r, 1);
    SkipChar(r, 2);
    SkipChar(r, 3);
    SkipChar(r, 4);
    SkipChar(r, 5);
    SkipChar(r, 6);
    SkipChar(r, 7);
    assert r[8..] == rest;
  }

  /** After the repair no "</e>" is left in the text. */
  lemma {:induction false} RepairRemovesAll(s: string)
    ensures !Contains(RepairClosingTags(s), "</e>")
    decreases |s|
  {
    var r := RepairClosingTags(s);
    if StartsWith(s, "</e>") {
      RepairRemovesAll(s[4..]);
      ClosingErrorPrefix(RepairClosingTags(s[4..]));
    } else if s != [] {
      var rest := RepairClosingTags(s[1..]);
      RepairRemovesAll(s[1..]);
      RepairKeepsSlashPrefix(s[1..]);
      assert r == [s[0]] + rest;
      assert s == [s[0]] + s[1..];
      StartsWithCons(s[0], rest, '<', "/e>");
      StartsWithCons(s[0], s[1..], '<', "/e>");
      assert !StartsWith(r, "</e>");
      assert r[1..] == rest;
    }
  }

  /** Every element below `cs` (and `cs` themselves) in document order;
      ElementTree's `.//` axis. */
  function DescendantsOf(cs: seq<Element>): seq<Element>
  {
    if cs == [] then [] else [cs[0]] + DescendantsOf(cs[0].children) + DescendantsOf(cs[1..])
  }

  /** `find`: the first element carrying exactly this tag. */
  function FirstWithTag(es: seq<Element>, tag: string): (r: Option<Element>)
    ensures r.Some? ==> r.value in es && r.value.tag == tag
    ensures r.Some? ==> exists k :: FirstTagAt(es, tag, k) && es[k] == r.value
    ensures r.None? ==> forall e :: e in es ==> e.tag != tag
  {
    if es == [] then None
    else if es[0].tag == tag then Some(es[0])
    else
      var r := FirstWithTag(es[1..], tag);
      assert r.Some? ==> exists k :: FirstTagAt(es, tag, k) && es[k] == r.value by {
        if r.Some? {
          var k :| FirstTagAt(es[1..], tag, k) && es[1..][k] == r.value;
          FirstTagShift(es, tag, k);
        }
      }
      r
  }

  /** `es[k]` is the first element of `es` with that tag. */
  predicate FirstTagAt(es: seq<Element>, tag: string, k: int) {
    0 <= k < |es| && es[k].tag == tag && forall j :: 0 <= j < k ==> es[j].tag != tag
  }

  lemma FirstTagShift(es: seq<Element>, tag: string, k: int)
    requires es != [] && es[0].tag != tag && FirstTagAt(es[1..], tag, k)
    ensures FirstTagAt(es, tag, k + 1) && es[k + 1] == es[1..][k]
  {
    forall j | 1 <= j < k + 1
      ensures es[j].tag != tag
    {
      assert es[j] == es[1..][j - 1];
    }
  }

  /** `findall` restricted to one tag, in order. */
  function AllWithTag(es: seq<Element>, tag: string): (r: seq<Element>)
    ensures forall e :: e in r ==> e in es && e.tag == tag
    ensures forall e :: e in es && e.tag == tag ==> e in r
  {
    if es == [] then []
    else
      assert forall e :: e in es ==> e == es[0] || e in es[1..];
      (if es[0].tag == tag then [es[0]] else []) + AllWithTag(es[1..], tag)
  }

  /** `findall` keeps document order: the matches of two runs of elements are
      those of the first run followed by those of the second. */
  lemma {:induction false} AllWithTagConcat(a: seq<Element>, b: seq<Element>, tag: string)
    ensures AllWithTag(a + b, tag) == AllWithTag(a, tag) + AllWithTag(b, tag)
  {
    if a == [] {
      assert a + b == b;
    } else {
      assert (a + b)[0] == a[0] && (a + b)[1..] == a[1..] + b;
      AllWithTagConcat(a[1..], b, tag);
    }
  }

  /** The `Error` children of every `Errors` element in `ds`, in order. */
  function ErrorsUnder(ds: seq<Element>): seq<Element> {
    if ds == [] then []
    else (if ds[0].tag == "Errors" then AllWithTag(ds[0].children, "Error") else []) + ErrorsUnder(ds[1..])
  }

  /** `root.findall(".//Errors/Error")`: the tags are matched literally, with no namespace. */
  function ErrorElements(root: Element): seq<Element> {
    ErrorsUnder(DescendantsOf(root.children))
  }

  predicate IsErrorStatus(root: Element) {
    "Status" in root.attrs && root.attrs["Status"] == "ERROR"
  }

  function CodeHint(number: string): string {
    if number == "1011102" then ApiKeyHint
    else if number == "1011147" then IpHint
    else if number == "1010900" then UsernameHint
    else ""
  }

  /** The exception raised for a `Status="ERROR"` response (base.py:222-244). */
  function StatusError(root: Element): (r: Error)
    ensures r.ApiError?
    ensures ErrorElements(root) == [] ==> r == ApiError("UNKNOWN_ERROR", "Unknown error occurred but no error details provided")
    ensures ErrorElements(root) != [] ==>
              var first := ErrorElements(root)[0];
              var text := if first.text.Some? && first.text.value != "" then first.text.value else "Unknown error";
              r.code == (if "Number" in first.attrs then first.attrs["Number"] else "0")
              && r.message == text + CodeHint(r.code)
  {
    var errors := ErrorElements(root);
    if errors != [] then
      var first := errors[0];
      var text := if first.text.Some? && first.text.value != "" then first.text.value else "Unknown error";
      var number := if "Number" in first.attrs then first.attrs["Number"] else "0";
      ApiError(number, text + CodeHint(number))
    else
      ApiError("UNKNOWN_ERROR", "Unknown error occurred but no error details provided")
  }

  lemma {:induction false} NoErrorsUnderQualified(ds: seq<Element>)
    requires forall d :: d in ds ==> StartsWith(d.tag, "{")
    ensures ErrorsUnder(ds) == []
  {
    if ds != [] {
      assert ds[0] in ds;
      assert ds[0].tag[..1][0] == '{' && "Errors"[0] == 'E';
      assert ds[0].tag != "Errors";
      NoErrorsUnderQualified(ds[1..]);
    }
  }

  /** The error lookup is not namespace-qualified (base.py:223): when every tag
      below the root is namespace-qualified, as in a response declaring the
      API's default namespace, no `Error` is found and the code is UNKNOWN_ERROR. */
  lemma QualifiedErrorsAreNotFound(root: Element)
    requires forall d :: d in DescendantsOf(root.children) ==> StartsWith(d.tag, "{")
    ensures ErrorElements(root) == []
    ensures StatusError(root).code == "UNKNOWN_ERROR"
  {
    NoErrorsUnderQualified(DescendantsOf(root.children));
  }

  /** `PremiumRegistrationPrice` as a number: default "0", empty text 0.0. */
  function PremiumPrice(elem: Element, parseFloat: string -> Option<real>): Result<real, Error> {
    var text := if "PremiumRegistrationPrice" in elem.attrs then elem.attrs["PremiumRegistrationPrice"] else "0";
    if text == "" then Ok(0.0)
    else if parseFloat(text).Some? then Ok(parseFloat(text).value)
    else Err(FloatError(text))
  }

  predicate AttrIsTrue(elem: Element, name: string) {
    name in elem.attrs && elem.attrs[name] == "true"
  }

  /** The dictionary built for one `DomainCheckResult` element. */
  function CheckEntry(elem: Element, price: real): Value {
    VMap(map[
      "Domain" := (if "Domain" in elem.attrs then VStr(elem.attrs["Domain"]) else VNone),
      "Available" := VBool(AttrIsTrue(elem, "Available")),
      "IsPremiumName" := VBool(AttrIsTrue(elem, "IsPremiumName")),
      "PremiumRegistrationPrice" := VReal(price)])
  }

  /** Each entry has the four keys; `Available` and `IsPremiumName` are true
      exactly when the attribute's text is "true". */
  lemma CheckEntryFields(elem: Element, price: real)
    ensures var r := CheckEntry(elem, price);
            && r.VMap? && r.fields.Keys == {"Domain", "Available", "IsPremiumName", "PremiumRegistrationPrice"}
            && r.fields["Available"] == VBool(AttrIsTrue(elem, "Available"))
            && r.fields["IsPremiumName"] == VBool(AttrIsTrue(elem, "IsPremiumName"))
            && r.fields["PremiumRegistrationPrice"] == VReal(price)
  {
  }

  /** The entries for a sequence of `DomainCheckResult` elements, or the first
      price conversion failure. */
  function CheckEntries(elems: seq<Element>, parseFloat: string -> Option<real>): Result<seq<Value>, Error> {
    if elems == [] then Ok([])
    else
      var n := |elems| - 1;
      match CheckEntries(elems[..n], parseFloat)
      case Err(e) => Err(e)
      case Ok(entries) =>
        match PremiumPrice(elems[n], parseFloat)
        case Err(e) => Err(e)
        case Ok(price) => Ok(entries + [CheckEntry(elems[n], price)])
  }

  lemma {:induction false} CheckEntriesFailurePersists(elems: seq<Element>, n: nat, parseFloat: string -> Option<real>)
    requires n <= |elems| && CheckEntries(elems[..n], parseFloat).Err?
    ensures CheckEntries(elems, parseFloat) == CheckEntries(elems[..n], parseFloat)
    decreases |elems| - n
  {
    if n < |elems| {
      assert elems[..n + 1][..n] == elems[..n];
      CheckEntriesFailurePersists(elems, n + 1, parseFloat);
    } else {
      assert elems[..n] == elems;
    }
  }

  /** The `domains.check` extraction fails exactly when some element's price
      text does not convert. */
  lemma {:induction false} CheckEntriesSucceedsIff(elems: seq<Element>, parseFloat: string -> Option<real>)
    ensures CheckEntries(elems, parseFloat).Ok? <==> forall i :: 0 <= i < |elems| ==> PremiumPrice(elems[i], parseFloat).Ok?
  {
    if forall i :: 0 <= i < |elems| ==> PremiumPrice(elems[i], parseFloat).Ok? {
      CheckEntriesAllParse(elems, parseFloat);
    } else {
      var i :| 0 <= i < |elems| && PremiumPrice(elems[i], parseFloat).Err?;
      CheckEntriesOneFails(elems, parseFloat, i);
    }
  }

  lemma {:induction false} CheckEntriesAllParse(elems: seq<Element>, parseFloat: string -> Option<real>)
    requires forall i :: 0 <= i < |elems| ==> PremiumPrice(elems[i], parseFloat).Ok?
    ensures CheckEntries(elems, parseFloat).Ok?
  {
    if elems != [] {
      var n := |elems| - 1;
      assert forall i :: 0 <= i < n ==> elems[..n][i] == elems[i];
      CheckEntriesAllParse(elems[..n], parseFloat);
      assert PremiumPrice(elems[n], parseFloat).Ok?;
    }
  }

  lemma {:induction false} CheckEntriesOneFails(elems: seq<Element>, parseFloat: string -> Option<real>, i: nat)
    requires i < |elems| && PremiumPrice(elems[i], parseFloat).Err?
    ensures CheckEntries(elems, parseFloat).Err?
  {
    var n := |elems| - 1;
    if i < n {
      assert elems[..n][i] == elems[i];
      CheckEntriesOneFails(elems[..n], parseFloat, i);
    }
  }


  /** On success there is one entry per element ... */
  lemma {:induction false} CheckEntriesLength(elems: seq<Element>, parseFloat: string -> Option<real>)
    requires CheckEntries(elems, parseFloat).Ok?
    ensures |CheckEntries(elems, parseFloat).value| == |elems|
  {
    if elems != [] {
      CheckEntriesLength(elems[..|elems| - 1], parseFloat);
    }
  }

  /** ... and the entry at position `i` is built from element `i`. */
  lemma {:induction false} CheckEntriesAt(elems: seq<Element>, parseFloat: string -> Option<real>, i: nat)
    requires CheckEntries(elems, parseFloat).Ok? && i < |elems|
    ensures PremiumPrice(elems[i], parseFloat).Ok?
    ensures i < |CheckEntries(elems, parseFloat).value|
    ensures CheckEntries(elems, parseFloat).value[i] == CheckEntry(elems[i], PremiumPrice(elems[i], parseFloat).value)
  {
    var n := |elems| - 1;
    CheckEntriesLength(elems[..n], parseFloat);
    if i < n {
      CheckEntriesAt(elems[..n], parseFloat, i);
      assert elems[..n][i] == elems[i];
    }
  }


  /** The loop over the `DomainCheckResult` elements (base.py:256-271). */
  method CollectCheckEntries(elems: seq<Element>, parseFloat: string -> Option<real>)
    returns (r: Result<seq<Value>, Error>)
    ensures r == CheckEntries(elems, parseFloat)
  {
    var results: seq<Value> := [];
    var i := 0;
    while i < |elems|
      invariant 0 <= i <= |elems|
      invariant CheckEntries(elems[..i], parseFloat) == Ok(results)
    {
      var elem := elems[i];
      var priceText := if "PremiumRegistrationPrice" in elem.attrs then elem.attrs["PremiumRegistrationPrice"] else "0";
      var price: real;
      PrefixOfPrefix(elems, i + 1);
      if priceText == "" {
        price := 0.0;
      } else if parseFloat(priceText).Some? {
        price := parseFloat(priceText).value;
      } else {
        CheckEntriesFailurePersists(elems, i + 1, parseFloat);
        return Err(FloatError(priceText));
      }
      results := results + [CheckEntry(elem, price)];
      i := i + 1;
    }
    assert elems[..i] == elems;
    r := Ok(results);
  }

  predicate HasSentinel(xml: string) {
    Contains(xml, ApiKeyInvalidText) || Contains(xml, IpNotWhitelistedText)
  }

  /** The `RequestedCommand` element names `namecheap.domains.check`. */
  predicate IsCheckResponse(root: Element) {
    var requested := FirstWithTag(DescendantsOf(root.children), Namespace + "RequestedCommand");
    requested.Some? && requested.value.text == Some(CheckCommand)
  }

  /** `_parse_response`: sentinel texts first, then the parse, then an ERROR
      status, then the `domains.check` special case, then the generic
      conversion of `CommandResponse`. */
  method ParseResponse(xml: string, parseXml: string -> ParseOutcome, parseFloat: string -> Option<real>)
    returns (r: Result<Value, Error>)
    ensures Contains(xml, ApiKeyInvalidText) ==> r == Err(ApiError("1011102", ApiKeyInvalidText + ApiKeyHint))
    ensures !Contains(xml, ApiKeyInvalidText) && Contains(xml, IpNotWhitelistedText)
            ==> r == Err(ApiError("1011147", IpNotWhitelistedText + IpHint))
    ensures !HasSentinel(xml) && parseXml(RepairClosingTags(xml)).ParseFailed?
            ==> r == Err(ApiError("XML_PARSE_ERROR", "Failed to parse XML response: " + parseXml(RepairClosingTags(xml)).detail))
    ensures !HasSentinel(xml) && parseXml(RepairClosingTags(xml)).Parsed?
            ==> var root := parseXml(RepairClosingTags(xml)).root;
                && (IsErrorStatus(root) ==> r == Err(StatusError(root)))
                && (!IsErrorStatus(root) && IsCheckResponse(root) ==>
                      var elems := AllWithTag(DescendantsOf(root.children), Namespace + "DomainCheckResult");
                      r == match CheckEntries(elems, parseFloat)
                           case Ok(entries) => Ok(VMap(map["DomainCheckResult" := VList(entries)]))
                           case Err(e) => Err(e))
                && (!IsErrorStatus(root) && !IsCheckResponse(root) ==>
                      r == match FirstWithTag(DescendantsOf(root.children), Namespace + "CommandResponse")
                           case None => Ok(VMap(map[]))
                           case Some(response) => Ok(ElementValue(response)))
  {
    if Contains(xml, ApiKeyInvalidText) {
      return Err(ApiError("1011102", ApiKeyInvalidText + ApiKeyHint));
    } else if Contains(xml, IpNotWhitelistedText) {
      return Err(ApiError("1011147", IpNotWhitelistedText + IpHint));
    }
    var repaired := RepairClosingTags(xml);
    var root: Element;
    match parseXml(repaired) {
      case ParseFailed(detail) =>
        return Err(ApiError("XML_PARSE_ERROR", "Failed to parse XML response: " + detail));
      case Parsed(tree) =>
        root := tree;
    }
    if IsErrorStatus(root) {
      return Err(StatusError(root));
    }
    var below := DescendantsOf(root.children);
    var requested := FirstWithTag(below, Namespace + "RequestedCommand");
    if requested.Some? && requested.value.text == Some(CheckCommand) {
      var elems := AllWithTag(below, Namespace + "DomainCheckResult");
      var entries := CollectCheckEntries(elems, parseFloat);
      match entries {
        case Err(error) => return Err(error);
        case Ok(results) => return Ok(VMap(map["DomainCheckResult" := VList(results)]));
      }
    }
    var response := FirstWithTag(below, Namespace + "CommandResponse");
    if response.None? {
      return Ok(VMap(map[]));
    }
    var converted := ElementToDict(response.value);
    r := Ok(converted);
  }
}
