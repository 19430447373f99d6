# A Dafny model of the Namecheap API client

This project models the deterministic core of the Python Namecheap API client
(`namecheap` package and its two example scripts). The model covers:

- **Response classification and conversion** (`ApiClient`, from `namecheap/base.py`).
  - `_parse_response` checks the two malformed-response sentinel texts, repairs `</e>` closing tags, and classifies a parsed reply. The outcomes are an API error (`Status="ERROR"`), the `domains.check` extraction, or the generic conversion of `CommandResponse`.
  - `_element_to_dict` is modelled twice: as a recursive specification function, and as a recursive method with loops proved equal to it.
  - `_get_base_params` and the parameter assembly of `_make_request`.
  - The credential check of `__init__`.
- **Host records** (`DnsApi`, from `namecheap/api/domains/dns.py`).
  - `set_hosts`: alias resolution, defaults, the record-type and TTL checks, and the indexed parameter encoding. It is written as two loops proved against specification functions.
  - `get_hosts` list normalisation, `set_default`, `set_custom` and `get_list`.
- **Host-list editing** (`EnhancedDns`, from `namecheap/enhanced/dns.py`): `update_record`, `delete_record` and `set_a_records`, as loops over the fetched host list.
- **Availability and pricing merge** (`EnhancedDomains`, from `namecheap/enhanced/domains.py`): `check_with_pricing` and `search_available`.
- **Parameter builders** (`DomainsApi`, `NsApi`, `TransferApi`, `SslApi`, `UsersApi`), with their validation, optional keys and `**kwargs` overrides. `NsApi` also builds the per-call error catalogs.
- **The DNS command-line example** (`DnsTool`, from `examples/dns_tool.py`): the `confirm_action` decision, and the record construction and partition of `add_record`, `delete_record` and `import_records`.
- **Table layout** (`PrintTable`, from `examples/utils/print_table.py`): the printed lines are returned instead of printed.

The shared modules are:

- `Values`: Python values (None, bool, int, real, str, list, dict) and the exceptions the code raises.
- `Text`: the `str` operations the code uses (strip, lower, split, join, `int()`, `str()`).
- `DomainName`: the first-dot SLD/TLD split that every API module repeats.
- `Wrappers`: `Option` and `Result`.
- `Seqs`: small sequence lemmas.

Design decisions:

- Python dicts are Dafny maps.
- XML is taken already parsed (`Element`).
- `ET.fromstring` and `float()` are function parameters.
- Raised exceptions are `Err` values of a `Result`.

Three behaviours follow the code as written, not a more general design:

- Domain names are split at the first dot, with no public-suffix rules: "foo.bar.co.uk" has SLD "foo".
- `check_with_pricing` makes one pricing request for the whole TLD set. A failure in it propagates; it does not degrade to price 0.0.
- Every nameserver call (`create`, `delete`, `update`, `get_info`) raises `TypeError` before any request is sent. Each passes four positional arguments to `_make_request`, which base.py defines with only the command and an optional parameter dict.

The `set_hosts` parameter names are `HostName1`, `RecordType1`, … with no separator, as the code formats them.

## Model

| member | source | states |
|---|---|---|
| ApiClient.MissingCredentials | namecheap/base.py:97-105 | no credential is reported missing exactly when all four are given (non-empty); at most four are reported |
| ApiClient.NewConfig | namecheap/base.py:96-125 | construction succeeds iff all four credentials are given; otherwise a `ValueError` carrying the missing-credentials message; on success the credentials are stored and the base URL is the sandbox URL iff `sandbox` |
| ApiClient.RequestParams | namecheap/base.py:140-168 | the request parameters are the four auth keys, `Command` and the caller's keys; caller keys win on collision, otherwise the auth values and the command are sent |
| ApiClient.LocalName | namecheap/base.py:303-306 | a tag without `}` is unchanged |
| ApiClient.LocalNameOfQualified | namecheap/base.py:303-306 | stripping the `{uri}` prefix of a namespace-qualified tag gives back the local name |
| ApiClient.AttrValue | namecheap/base.py:290-297 | an attribute value becomes `True` iff it lower-cases into {true, yes, enabled}, `False` iff into {false, no, disabled}, and is otherwise kept as the same text |
| ApiClient.LeafValue | namecheap/base.py:319-329 | all-digit text becomes the int it denotes; otherwise a true/false word (any case) becomes that bool; any other text stays text |
| ApiClient.ChildTags | namecheap/base.py:300-306 | one local tag per child |
| ApiClient.ElementValue | namecheap/base.py:287-339 | every element converts to a dict |
| ApiClient.ChildValues | namecheap/base.py:300-301 | one converted value per child, each the conversion of that child |
| ApiClient.ElementValueFields | namecheap/base.py:287-315 | an element with attributes or children converts to the dict built from its attributes and grouped children |
| ApiClient.ElementValueCases | namecheap/base.py:317-339 | an element with no attributes, no children and non-blank text converts to `{tag: LeafValue(stripped text)}`; any other element converts to its attribute/child dict |
| ApiClient.AttributeFields | namecheap/base.py:289-297 | with no children the dict holds exactly the converted attributes |
| ApiClient.FieldsEmpty | namecheap/base.py:318 | the attribute/child dict is empty iff there are no attributes and no children |
| ApiClient.SelectContents | namecheap/base.py:308-315 | a tag has collected values iff it occurs among the child tags, and the values are children's values |
| ApiClient.SelectAppend | namecheap/base.py:308-315 | one more child adds its value to its own tag's group only |
| ApiClient.FieldsAt | namecheap/base.py:308-315 | a key is in the dict iff it is an attribute or a child tag, and its value is determined by the attribute and the children with that tag |
| ApiClient.FieldValueAppend | namecheap/base.py:309-315 | adding a child to a key reproduces the code's insert: new key, wrap into a pair, or append to the list |
| ApiClient.FieldsAppendOther | namecheap/base.py:308-315 | one more child leaves every other key unchanged |
| ApiClient.FieldsAppendSame | namecheap/base.py:308-315 | one more child sets its own tag's entry as the in-place insert does |
| ApiClient.FieldsAppend | namecheap/base.py:308-315 | processing one more child equals one step of the code's loop body |
| ApiClient.ChildStep | namecheap/base.py:300-315 | the dict after `i + 1` children is the dict after `i` children with child `i` inserted |
| ApiClient.AttributeDict | namecheap/base.py:289-297 | the attribute loop yields exactly the converted attributes |
| ApiClient.ElementToDict | namecheap/base.py:277-339 | the recursive loop-based conversion equals the specification `ElementValue` |
| ApiClient.ChildrenNamed | namecheap/base.py:300-306 | the children picked for a tag are children whose local tag is that tag |
| ApiClient.ValuesOf | namecheap/base.py:300-301 | one converted value per element, in order |
| ApiClient.TagsOf | namecheap/base.py:303-306 | one local tag per element, in order |
| ApiClient.ChildSequences | namecheap/base.py:300-306 | the child tag and value sequences are those of the element's children |
| ApiClient.SelectIsChildrenNamed | namecheap/base.py:300-315 | the values collected under a tag are the conversions of the children with that local tag, in document order |
| ApiClient.ChildGrouping | namecheap/base.py:300-315 | a tag seen once maps to that child's value; k ≥ 2 occurrences map to a k-element list in document order; an attribute of the same name becomes the list's first element |
| ApiClient.LeafChildIsWrapped | namecheap/base.py:299-337 | a leaf child is stored as a one-entry dict keyed by its own tag |
| ApiClient.TextHandling | namecheap/base.py:317-339 | text is ignored when attributes or children exist; an empty element with blank or no text converts to `{}` |
| ApiClient.RepairClosingTags | namecheap/base.py:210 | text without `</e>` is unchanged |
| ApiClient.RepairHead | namecheap/base.py:210 | a leading `</e>` becomes `</Error>`; any other first character is kept; only the empty text repairs to empty |
| ApiClient.RepairKeepsSlashPrefix | namecheap/base.py:210 | the repair does not create a `/e>` at the start |
| ApiClient.RepairRemovesAll | namecheap/base.py:210 | after the repair no `</e>` remains |
| ApiClient.FirstWithTag | namecheap/base.py:250 | the lookup returns the first element, in document order, with that exact tag, and none only when no element has it |
| ApiClient.AllWithTag | namecheap/base.py:256 | the elements found are exactly the searched elements with that tag: each has the tag, and every element with the tag is found |
| ApiClient.AllWithTagConcat | namecheap/base.py:256 | searching two runs of elements finds the first run's matches followed by the second's, so document order and repeats are kept |
| ApiClient.StatusError | namecheap/base.py:222-244 | an error status gives the first `Error`'s `Number` (default "0") and text (default "Unknown error") plus the hint for 1011102, 1011147 or 1010900 only; with no `Error` found, code "UNKNOWN_ERROR" |
| ApiClient.NoErrorsUnderQualified | namecheap/base.py:223 | the unqualified `Errors/Error` lookup finds nothing among namespace-qualified elements |
| ApiClient.QualifiedErrorsAreNotFound | namecheap/base.py:223-244 | in a fully namespace-qualified reply an error status always yields "UNKNOWN_ERROR" |
| ApiClient.CheckEntryFields | namecheap/base.py:258-266 | each check entry has exactly Domain, Available, IsPremiumName and PremiumRegistrationPrice; Available and IsPremiumName are true iff the attribute is exactly "true" |
| ApiClient.CheckEntriesFailurePersists | namecheap/base.py:255-267 | once a price conversion fails, the rest of the loop does not change the error |
| ApiClient.CheckEntriesSucceedsIff | namecheap/base.py:255-267 | the extraction succeeds iff every element's premium price converts |
| ApiClient.CheckEntriesAllParse | namecheap/base.py:255-267 | when every price converts, the extraction succeeds |
| ApiClient.CheckEntriesOneFails | namecheap/base.py:255-267 | one failing price makes the extraction fail |
| ApiClient.CheckEntriesLength | namecheap/base.py:255-267 | one entry per `DomainCheckResult` element |
| ApiClient.CheckEntriesAt | namecheap/base.py:255-267 | entry `i` is built from element `i` and its own price, in document order |
| ApiClient.CollectCheckEntries | namecheap/base.py:255-268 | the extraction loop equals the specification `CheckEntries` |
| ApiClient.ParseResponse | namecheap/base.py:184-275 | API-key sentinel first (1011102), then the IP sentinel (1011147), both before parsing; then XML_PARSE_ERROR, the status error, the `domains.check` list, the empty dict without `CommandResponse`, or its conversion |
| DnsApi.DomainParams | namecheap/api/domains/dns.py:19-24 | `SLD` and `TLD` are the first-dot split: a dot-free SLD that rejoins with the TLD to the domain; without a dot the TLD is empty |
| DnsApi.NormalizeHostList | namecheap/api/domains/dns.py:65-77 | an absent `host` becomes `[]`, a single record `[record]`, a list is unchanged; no other key is touched |
| DnsApi.NormalizeHost | namecheap/api/domains/dns.py:126-178 | a record normalises iff it has an alias of each of the three fields; Name, Type and Value take precedence; a missing field raises its own `ValueError` message, checked Name, then Type, then Value; MXPref exactly for MX (Priority, then MXPref, then "10"); TTL stored as text, default "1800" |
| DnsApi.HostProblem | namecheap/api/domains/dns.py:181-198 | an entry passes iff its type is one of the eight and its TTL is an integer in 60..86400; the type is checked first; None, a list or a dict TTL is a `TypeError`; any other failing TTL (unparsable or outside 60..86400) is the invalid-TTL `ValueError` |
| DnsApi.GroupedTtl | namecheap/api/domains/dns.py:188-191 | a TTL text with an underscore between digit runs ("3_600") reads as the digits without it, as `int()` reads it |
| DnsApi.FieldNamesByFirstChar | namecheap/api/domains/dns.py:200-207 | the five field names differ in their first letter |
| DnsApi.IndexedKeyText | namecheap/api/domains/dns.py:200-207 | an indexed name starts like its field's name and ends in the index's decimal digits |
| DnsApi.KeyTextInjective | namecheap/api/domains/dns.py:200-207 | no two parameter names of `set_hosts` collide |
| DnsApi.FirstKeyText | namecheap/api/domains/dns.py:200-207 | the first host name is sent as `HostName1` (no separator) |
| DnsApi.AddHostAt | namecheap/api/domains/dns.py:200-207 | adding one entry sets exactly its own indexed keys and leaves all others |
| DnsApi.SetHostsBase | namecheap/api/domains/dns.py:105-106 | the parameters start with the plain keys only |
| DnsApi.NormalizeAllFailurePersists | namecheap/api/domains/dns.py:126-178 | the first record's missing-field error is the one raised |
| DnsApi.FirstProblemPersists | namecheap/api/domains/dns.py:181-198 | the first entry's type or TTL error is the one raised |
| DnsApi.ResolveRecord | namecheap/api/domains/dns.py:127-178 | the body of the first loop equals `NormalizeHost` |
| DnsApi.NormalizeHosts | namecheap/api/domains/dns.py:125-178 | the first loop equals `NormalizeAll` |
| DnsApi.CheckRecord | namecheap/api/domains/dns.py:182-198 | the checks of the second loop equal `HostProblem` |
| DnsApi.AddHostParams | namecheap/api/domains/dns.py:200-207 | the assignments of one entry equal `AddHost` |
| DnsApi.EncodeEntries | namecheap/api/domains/dns.py:180-207 | the second loop raises the first entry's problem, or sends every entry's parameters |
| DnsApi.SetHosts | namecheap/api/domains/dns.py:79-213 | `set_hosts` equals its specification `SetHostsParams` |
| DnsApi.NormalizeAllSpec | namecheap/api/domains/dns.py:125-178 | the first pass succeeds iff every record normalises; on failure the error is that of the first failing record |
| DnsApi.NormalizeAllLength | namecheap/api/domains/dns.py:125-178 | one entry per record |
| DnsApi.NormalizeAllAt | namecheap/api/domains/dns.py:125-178 | entry `i` is record `i` normalised |
| DnsApi.FirstProblemSpec | namecheap/api/domains/dns.py:180-198 | the second pass passes iff every entry does; otherwise it reports the first failing entry's problem |
| DnsApi.EncodeHostsAt | namecheap/api/domains/dns.py:180-207 | the encoding keeps the plain keys and sends field `f` of entry `i` under index `i + 1` |
| DnsApi.SetHostsSucceedsIff | namecheap/api/domains/dns.py:125-198 | `set_hosts` succeeds iff every record normalises and passes its checks; a missing field is reported before any type or TTL error |
| DnsApi.SetHostsNamedKeys | namecheap/api/domains/dns.py:105-106 | on success the only plain keys are SLD and TLD, holding the split domain |
| DnsApi.SetHostsIndexedKey | namecheap/api/domains/dns.py:200-207 | on success, key `f{i+1}` is sent iff record `i` has that field, with that value |
| DnsApi.SetHostsNoExtraKeys | namecheap/api/domains/dns.py:180-207 | no indexed key is sent beyond the number of records, or at index 0 |
| DnsApi.SetHostsMxPref | namecheap/api/domains/dns.py:158-205 | `MXPref{i+1}` is sent iff record `i` is MX, with Priority, then MXPref, then "10"; never for other types |
| DnsApi.IntTtlAccepted | namecheap/api/domains/dns.py:168-198 | an int TTL in range is stringified and passes validation with its own value |
| DnsApi.SetDefaultParams | namecheap/api/domains/dns.py:228-230 | `DomainName` and `TLD` are the first-dot split: a dot-free SLD that rejoins with the TLD; without a dot the TLD is empty |
| DnsApi.SetCustomParams | namecheap/api/domains/dns.py:247-253 | more than 12 nameservers raise the fixed `ValueError`; otherwise exactly DomainName and TLD from the first-dot split, and Nameservers as the comma-join of the list |
| DnsApi.SetCustomRoundTrip | namecheap/api/domains/dns.py:250-252 | the `Nameservers` text splits back into the list, in order |
| DnsApi.GetListParams | namecheap/api/domains/dns.py:268-270 | `get_list` sends the SLD/TLD pair |
| DnsTool.ConfirmAction | examples/dns_tool.py:44-53 | a blank answer gives the default; otherwise true iff the stripped answer starts with y or Y |
| DnsTool.ListRecords | examples/dns_tool.py:73-114 | the `get_hosts` result is returned unchanged; an API error gives `[]`; other failures propagate |
| DnsTool.NewRecord | examples/dns_tool.py:132-141 | the record has Name/Type/Address/TTL from the inputs, and MXPref iff the type upper-cases to MX; a missing input is a `KeyError` |
| DnsTool.AddRecord | examples/dns_tool.py:132-144 | the list sent is the current records followed by the new one |
| DnsTool.AddRecordLowerCaseMx | examples/dns_tool.py:140-141 | a type "mx" still gets MXPref |
| DnsTool.StrFieldsSpec | examples/dns_tool.py:194 | a kept record keeps its keys, each value replaced by its `str()` |
| DnsTool.MatchAllIff | examples/dns_tool.py:188-193 | the comparison chain is true iff every key is present with its value |
| DnsTool.FieldMatches | examples/dns_tool.py:189-190 | `record[key] == v` is true iff the key is present with that value, and fails iff it is missing |
| DnsTool.DeletesIff | examples/dns_tool.py:188-196 | a record is deleted iff Name and Type match and, when a value is given, Address matches |
| DnsTool.PartitionOne | examples/dns_tool.py:186-198 | the loop body equals one `PartitionStep` |
| DnsTool.PartitionSpec | examples/dns_tool.py:186-198 | every record lands in exactly one list: the deleted ones as they are, the others with their values made texts |
| DnsTool.PartitionConcat | examples/dns_tool.py:186-198 | partitioning two runs succeeds iff both do, and each list is the first run's followed by the second's, so both lists keep input order and multiplicity |
| DnsTool.PartitionFailurePersists | examples/dns_tool.py:186-198 | the first failing record's error is the one raised |
| DnsTool.PartitionedPrefixStep | examples/dns_tool.py:186-198 | one more record applies one loop step |
| DnsTool.PartitionRecords | examples/dns_tool.py:183-198 | the partition loop equals `Partitioned` |
| DnsTool.DeleteRecord | examples/dns_tool.py:168-220 | `set_hosts` receives the kept records iff something matched and the user confirmed; nothing otherwise |
| DnsTool.ImportedRecord | examples/dns_tool.py:254-263 | defaults "@", "A", "", "1800"; MXPref (default "10") iff the type is exactly "MX" |
| DnsTool.ImportLowerCaseMxHasNoPref | examples/dns_tool.py:262-263 | a type "mx" gets no MXPref on import |
| DnsTool.ImportedSpec | examples/dns_tool.py:251-265 | the import succeeds iff every entry is a dict; then one record per entry, in order |
| DnsTool.ImportedFailurePersists | examples/dns_tool.py:252-265 | the first non-dict entry's error is the one raised |
| DnsTool.ImportRecords | examples/dns_tool.py:247-265 | a non-list raises the fixed `ValueError`; otherwise the loop equals `Imported` |
| DomainName.SplitDomainName | namecheap/api/domains/base.py:19-32 | the SLD has no dot; with a dot, SLD is the text before the first dot, TLD the rest, and they rejoin to the domain; without one, TLD is empty |
| DomainName.AfterFirstDot | namecheap/enhanced/domains.py:43 | `split(".", 1)[1]` exists iff the name has a dot, and is the split's TLD |
| DomainName.FirstDotSplitExample | namecheap/api/domains/base.py:19-32 | "foo.bar.co.uk" splits into ("foo", "bar.co.uk") |
| DomainsApi.CheckParams | namecheap/api/domains/base.py:54-60 | more than 50 domains raise `ValueError` (50 is allowed); otherwise the only parameter is `DomainList`, the comma-join of the domains in order |
| DomainsApi.CheckRoundTrip | namecheap/api/domains/base.py:59-60 | `DomainList` splits back into the domains, in order |
| DomainsApi.GetListParams | namecheap/api/domains/base.py:90-116 | page size checked first, then sort_by, then list_type; on success exactly Page, PageSize, SortBy, ListType, and SearchTerm iff non-empty |
| DomainsApi.NameParams | namecheap/api/domains/base.py:133-134 | `DomainName` is the dot-free SLD and rejoins with `TLD` to the domain |
| DomainsApi.GetContactsParams | namecheap/api/domains/base.py:133-135 | `get_contacts` sends the name pair |
| DomainsApi.GetInfoParams | namecheap/api/domains/base.py:150-155 | `get_info` sends the name pair |
| DomainsApi.RenewParams | namecheap/api/domains/base.py:186-192 | DomainName, TLD and Years, plus PromotionCode iff it is non-empty |
| EnhancedDns.RecordDict | namecheap/enhanced/dns.py:87-93 | a record is sent with exactly Name, Type, Address, TTL, and MXPref when it has one, each holding the record's own value |
| EnhancedDns.RecordValues | namecheap/enhanced/dns.py:111 | the list handed to `set_hosts` holds each record's dict, in order |
| EnhancedDns.ExistingHosts | namecheap/enhanced/dns.py:52-56 | a missing result or missing `host` gives `[]`, a host list is used as is, a single host is wrapped; a `TypeError` exactly where `in` or indexing raises on a non-dict result |
| EnhancedDns.KeptStable | namecheap/enhanced/dns.py:87-93 | re-emitting an already re-emitted record changes nothing |
| EnhancedDns.Replacement | namecheap/enhanced/dns.py:71-81 | the replacement has the given name, type, value and `str(ttl)`; MXPref is `str(priority)` for MX with a priority, else the old non-empty MXPref |
| EnhancedDns.NewRecord | namecheap/enhanced/dns.py:96-106 | the appended record has MXPref iff it is MX, with the priority or 10 |
| EnhancedDns.AnyMatchStep | namecheap/enhanced/dns.py:59-84 | the `found` flag after one more record is the old flag or that record's match |
| EnhancedDns.UpdateRecord | namecheap/enhanced/dns.py:49-111 | `update_record` sends `UpdateRecordHosts` of the fetched list, or the fetch error |
| EnhancedDns.UpdatedHostsAt | namecheap/enhanced/dns.py:62-93 | entry `j` comes from dict record `j`: replaced if it matches, re-emitted otherwise |
| EnhancedDns.AnyMatchDicts | namecheap/enhanced/dns.py:59-84 | the flag is set iff some dict record matches |
| EnhancedDns.UpdateRecordSpec | namecheap/enhanced/dns.py:59-108 | every match is replaced in place (not only the first); others are kept in place; the new record is appended iff nothing matched; the requested record is then present |
| EnhancedDns.DeleteRecord | namecheap/enhanced/dns.py:136-169 | `delete_record` sends `DeleteRecordHosts` of the fetched list, or the fetch error |
| EnhancedDns.Survivors | namecheap/enhanced/dns.py:146-166 | the kept records are at most as many as the records |
| EnhancedDns.SurvivorsSpec | namecheap/enhanced/dns.py:146-166 | a record survives iff it does not meet the deletion criteria |
| EnhancedDns.SurvivorsConcat | namecheap/enhanced/dns.py:146-166 | the survivors of a concatenation are the survivors of each part, one after the other, so order and multiplicity are kept |
| EnhancedDns.DeleteRecordHostsAt | namecheap/enhanced/dns.py:146-166 | output `j` is the `j`-th survivor re-emitted |
| EnhancedDns.DeleteRecordSpec | namecheap/enhanced/dns.py:146-166 | exactly the records not matching (name, type, and value when given) are re-emitted, in order |
| EnhancedDns.DeleteNothingMatched | namecheap/enhanced/dns.py:146-166 | when nothing matches, every dict record is re-emitted in order |
| EnhancedDns.SetARecords | namecheap/enhanced/dns.py:186-231 | `set_a_records` sends `SetARecordsHosts` of the fetched list, or the fetch error |
| EnhancedDns.OtherHostsSpec | namecheap/enhanced/dns.py:196-213 | exactly the records other than A records of "@"/"www" are re-emitted, each with MXPref |
| EnhancedDns.OtherHostsConcat | namecheap/enhanced/dns.py:196-213 | the kept records of two runs are the first run's followed by the second's: order and multiplicity are kept |
| EnhancedDns.SetARecordsSpec | namecheap/enhanced/dns.py:196-228 | the list ends with the two A records "@" and "www" (given IP, TTL "1800"); no other such A record remains; every other record is kept, and for any split of the input the records before the two A records are the first part's kept records followed by the second's |
| EnhancedDns.SetARecordsIdempotent | namecheap/enhanced/dns.py:171-231 | running the operation on its own output sends the same list |
| EnhancedDns.OtherHostsAgain | namecheap/enhanced/dns.py:196-213 | filtering the re-emitted records again gives them back |
| EnhancedDns.OtherHostsDropsA | namecheap/enhanced/dns.py:204-228 | the two appended A records are dropped by a second run |
| EnhancedDomains.TldOf | namecheap/enhanced/domains.py:43 | "." plus the text after the first dot; `IndexError` iff there is no dot |
| EnhancedDomains.TldSetSucceedsIff | namecheap/enhanced/domains.py:41-44 | collecting TLDs succeeds iff every domain has a dot |
| EnhancedDomains.TldSetMembers | namecheap/enhanced/domains.py:41-44 | the set holds exactly "." plus each domain's text after its first dot |
| EnhancedDomains.TldSetFailurePersists | namecheap/enhanced/domains.py:41-44 | the first dotless domain's error is the one raised |
| EnhancedDomains.CollectTlds | namecheap/enhanced/domains.py:40-44 | the TLD loop equals `TldSet` |
| EnhancedDomains.PriceValue | namecheap/enhanced/domains.py:63-68 | a text price goes through `float()`, 0 when that fails; any other price is kept |
| EnhancedDomains.AddProduct | namecheap/enhanced/domains.py:60-69 | the table loop body equals `AddProductSpec` |
| EnhancedDomains.PriceTableLastWins | namecheap/enhanced/domains.py:54-69 | a name is in the table iff some dict product with ProductName and Price has it; its entry comes from the last such product |
| EnhancedDomains.PriceTableFailurePersists | namecheap/enhanced/domains.py:54-69 | the first product's error is the one raised |
| EnhancedDomains.BuildPriceTable | namecheap/enhanced/domains.py:53-69 | the table loop over the listed products equals `PriceTable` |
| EnhancedDomains.ResultTld | namecheap/enhanced/domains.py:82-83 | a text domain is looked up under "." plus its text after the first dot, or "" without a dot; a list or dict domain gives `AttributeError` exactly when "." is among its elements or keys, else ""; any other value is a `TypeError` |
| EnhancedDomains.IsPositive | namecheap/enhanced/domains.py:92 | `> 0` is defined exactly for numbers and bools, and is true exactly for a positive number or `True` |
| EnhancedDomains.MergeEntry | namecheap/enhanced/domains.py:78-103 | Domain/Available/IsPremiumName with their defaults; Price is the premium price when premium and > 0, else the TLD's price, else 0.0 |
| EnhancedDomains.MergeShape | namecheap/enhanced/domains.py:71-105 | one merged entry per dict check result, in order |
| EnhancedDomains.MergeFailurePersists | namecheap/enhanced/domains.py:78-105 | the first failing result's error is the one raised |
| EnhancedDomains.MergePricing | namecheap/enhanced/domains.py:71-105 | the merge loop equals `Merge` |
| EnhancedDomains.CheckWithPricing | namecheap/enhanced/domains.py:21-107 | `check_with_pricing` equals its specification; on success the TLD set sent is `TldSet(domains)` |
| EnhancedDomains.SearchDomains | namecheap/enhanced/domains.py:129-133 | `keyword + tld` for each TLD in order; the five defaults when none are given |
| EnhancedDomains.WantedsSpec | namecheap/enhanced/domains.py:139-143 | the filter keeps exactly the available entries that are not premium or whose premium is allowed |
| EnhancedDomains.WantedsConcat | namecheap/enhanced/domains.py:139-143 | filtering two runs gives the first run's survivors followed by the second's: order and multiplicity are kept |
| EnhancedDomains.SearchAvailable | namecheap/enhanced/domains.py:109-145 | `search_available` returns the filtered merge of the generated domains, or its error |
| NsApi.Overlay | namecheap/api/domains/ns.py:78-79 | `{**base, **extra}` has every key of either, the later value winning |
| NsApi.CallErrors | namecheap/api/domains/ns.py:78-100 | every call's own entries include UNKNOWN_ERROR |
| NsApi.ErrorCatalog | namecheap/api/domains/ns.py:7-100 | every catalog holds every common code and the call's own codes; the call's entries win; other common codes keep their meaning; UNKNOWN_ERROR always differs from the common one |
| NsApi.CreateKnows2011153AsEmail | namecheap/api/domains/ns.py:80-83 | for `create`, 2011153 is an invalid email address |
| NsApi.UpdateKnows2011153AsMissing | namecheap/api/domains/ns.py:236-239 | for `update`, 2011153 is a missing nameserver |
| NsApi.UnknownToDeleteAndGetInfo | namecheap/api/domains/ns.py:158-172 | `delete` and `get_info` have no entry for 2011153 |
| NsApi.NameserverParams | namecheap/api/domains/ns.py:39-44 | SLD and TLD from the first-dot split, plus Nameserver |
| NsApi.CreateParams | namecheap/api/domains/ns.py:102-108 | exactly SLD, TLD, Nameserver, IP |
| NsApi.DeleteParams | namecheap/api/domains/ns.py:174-179 | exactly SLD, TLD, Nameserver |
| NsApi.UpdateParams | namecheap/api/domains/ns.py:254-261 | exactly SLD, TLD, Nameserver, OldIP, IP |
| NsApi.GetInfoParams | namecheap/api/domains/ns.py:318-323 | exactly SLD, TLD, Nameserver |
| NsApi.ErrorContext | namecheap/api/domains/ns.py:111 | the context is exactly {domain_name, nameserver} |
| NsApi.CallOutcome | namecheap/api/domains/ns.py:114-119 | every call raises `TypeError`: it passes four positional arguments to a `_make_request` that takes two |
| PrintTable.CellMaxSpec | examples/utils/print_table.py:25-27 | the running maximum bounds every cell of the column and is attained (or is the header's length) |
| PrintTable.ColumnWidth | examples/utils/print_table.py:25-28 | a column's width is its longest text plus two; `IndexError` iff some row is too short |
| PrintTable.ColumnWidths | examples/utils/print_table.py:23-28 | one width per header, or `IndexError` iff some row lacks a column |
| PrintTable.WidthsBoundCells | examples/utils/print_table.py:24-28 | every width exceeds its header and cells by at least two |
| PrintTable.Repeat | examples/utils/print_table.py:39 | `"-" * n` is n dashes |
| PrintTable.PadRight | examples/utils/print_table.py:33 | left-justified padding keeps the text and pads with spaces to the width |
| PrintTable.PaddedLineLength | examples/utils/print_table.py:44-46 | a line whose cells fit is as long as the sum of the widths |
| PrintTable.PaddedLinePrefix | examples/utils/print_table.py:44-46 | the line of the first `j` cells is a prefix of the whole line |
| PrintTable.PaddedLineCells | examples/utils/print_table.py:44-46 | cell `i` sits, padded, where the widths before it end |
| PrintTable.FormatRow | examples/utils/print_table.py:44-46 | the row loop builds the padded line; `IndexError` iff the row has more cells than columns |
| PrintTable.Separator | examples/utils/print_table.py:37-40 | the separator is exactly sum(widths) dashes |
| PrintTable.RowLinesAll | examples/utils/print_table.py:43-47 | with no over-long row, one padded line per row, in order |
| PrintTable.RowLinesStopped | examples/utils/print_table.py:43-47 | printing stops at the first over-long row |
| PrintTable.Widths | examples/utils/print_table.py:23-28 | one width per header |
| PrintTable.PrintTableLines | examples/utils/print_table.py:6-47 | `print_table` prints `Table(headers, rows)` |
| PrintTable.TableShape | examples/utils/print_table.py:23-47 | with one cell per header in every row: no error, 2 + len(rows) lines, each as long as the sum of the widths |
| SslApi.GetListParams | namecheap/api/ssl/base.py:42-54 | page size above 100 raises; else Page and PageSize, plus SortBy and ListType iff non-empty |
| SslApi.CreateParams | namecheap/api/ssl/base.py:78-84 | Years and Type, then the extra keyword arguments override |
| SslApi.GetInfoParams | namecheap/api/ssl/base.py:101 | only CertificateID |
| SslApi.ParseCsrParams | namecheap/api/ssl/base.py:117 | only the lower-case key `csr` |
| SslApi.ActivateParams | namecheap/api/ssl/base.py:144-152 | CertificateID, CSR, WebServerType, ApproverEmail, then the extra keyword arguments override |
| SslApi.ActivateWithoutExtras | namecheap/api/ssl/base.py:144-149 | without extras exactly the four named values are sent |
| Text.Strip | namecheap/base.py:318-319 | the stripped text has no surrounding white space, is empty iff the text is blank, and text with none is unchanged |
| Text.StripIsTrim | namecheap/base.py:318-319 | the stripped text is a slice of the input with only white space before and after it, so nothing inside is removed |
| Text.Split | namecheap/api/domains/base.py:29 | at least one piece, none holding the separator |
| Text.JoinSplit | namecheap/api/domains/base.py:29-31 | joining the pieces of a split restores the text |
| Text.SplitJoin | namecheap/api/domains/base.py:59 | splitting a comma-join restores the pieces when none holds a comma |
| Text.NatToStr | namecheap/api/domains/dns.py:200 | the decimal text of `n` is all digits, denotes `n`, and has no leading zero unless it is "0" |
| Text.ParseIntOfIntToStr | namecheap/api/domains/dns.py:171-191 | `int(str(n)) == n` |
| Text.ParseIntGrouped | namecheap/api/domains/dns.py:190 | `int()` ignores an underscore between two digit runs |
| Text.IntToStrInjective | namecheap/enhanced/dns.py:75 | distinct integers print differently |
| TransferApi.CreateParams | namecheap/api/domains/transfer.py:50-63 | the full domain name and Years, EPPCode and PromotionCode iff non-empty, then kwargs override |
| TransferApi.CreateSendsFullName | namecheap/api/domains/transfer.py:50-54 | "example.com" is sent whole, not split |
| TransferApi.GetStatusParams | namecheap/api/domains/transfer.py:80 | only TransferID |
| TransferApi.UpdateStatusParams | namecheap/api/domains/transfer.py:97-100 | TransferID and Resubmit as "true" or "false" |
| TransferApi.ResubmitRoundTrip | namecheap/api/domains/transfer.py:97-100 | Resubmit is one of the two words and is "true" iff the flag is set |
| TransferApi.GetListParams | namecheap/api/domains/transfer.py:126-147 | page size, then sort_by (4 options), then list_type (4 options); on success exactly the four keys |
| TransferApi.GetListDefaultsAccepted | namecheap/api/domains/transfer.py:103-108 | the default arguments pass validation |
| UsersApi.GetPricingParams | namecheap/api/users/base.py:44-73 | succeeds iff type, category and action validate; ProductCategory, ActionName, PromotionCode and ProductName only when given; a list of names is comma-joined |
| UsersApi.ProductTypeCheckedFirst | namecheap/api/users/base.py:44-47 | an unknown product type fails before anything else is checked |
| UsersApi.ProductNameListRoundTrip | namecheap/api/users/base.py:70-71 | the joined product names split back into the list |
| UsersApi.DomainRegisterAccepted | namecheap/enhanced/domains.py:47-51 | the pricing request of `check_with_pricing` passes validation |
| UsersApi.ChangePasswordParams | namecheap/api/users/base.py:103-106 | exactly OldPassword and NewPassword |
| Values.AsList | namecheap/enhanced/dns.py:55-56 | a list is kept, anything else wrapped |
| Values.Dicts | namecheap/enhanced/dns.py:62-64 | the dict records are at most as many as the records |
| Values.DictsMembers | namecheap/enhanced/dns.py:62-64 | the dict records are exactly the dicts listed |

## Left out

- The HTTP request, `raise_for_status` and every debug or console `print` are not modelled: they are network and console I/O.
- Credential loading from `.env` files and the environment is not modelled. `NewConfig` takes the credentials as already resolved, the `sandbox` flag as a bool, and `debug` as a plain field.
- `ET.fromstring` is a parameter of `ParseResponse`. Its parse-error text is the `detail` of `ParseFailed`.
- `float()` is a parameter (`parseFloat`) wherever prices are converted. Prices are abstract reals; no floating-point rounding is modelled.
- `str()` of floats, lists and dicts is a parameter (`strOther`) in the record partition of the DNS example. `str()` of None, bools, ints and texts is modelled.
- Key order of Python dicts is not modelled: dicts are maps. List order is modelled.
- The `set` of TLDs is a set: the order `list(tlds)` passes them to `get_pricing` is not modelled.
- Case mapping (`lower`, `upper`) and `isspace`/`isdigit` cover ASCII only.
- ParseInt: Python's `int()` also reads non-ASCII decimal digits (such as Arabic-Indic digits) and strips Unicode white space. The model reads ASCII digits, with underscores between them, and ASCII white space only. So a TTL written in other digits is rejected here where Python accepts it.
- Python equality across numeric types (`1 == 1.0 == True`) is not modelled. Values compare by their datatype constructor.
- A non-text `ProductName` in a pricing response is not used as a table key.
- The parameter keys of `set_hosts` are modelled as a datatype (`ParamKey`) rendered to text by `KeyText`. `KeyTextInjective` shows the rendering loses nothing.
- Error-catalog lookup and `{domain_name}`/`{nameserver}` substitution for nameserver errors are not modelled, because no nameserver call reaches them. ns.py calls `_make_request` with four positional arguments, and base.py defines it with only the command and an optional parameter dict, so every call raises `TypeError` first (`CallOutcome`). The `normalize_api_response` it would call next is not defined anywhere. The catalogs, the parameters and the context are modelled as built.
- The enhanced DNS operations return the host list they would pass to `set_hosts`, not the result of the call, which is network I/O.
- In the DNS example, `get_hosts` returns the whole response dict, not a list. The model takes the record list the example expects as input.
- In the DNS example, the confirmation answer and the `--force` flag are parameters. `input()`, `open()`, `json`, `display_record`, `export_records` and `main` are console and file I/O.
- The DNS example's table code after `return records` is unreachable. It is not modelled.
- `get_tld_list` and `get_balances` only send a command name with no parameters. They have no logic to model.
- The client facade, the package re-exports, the maintenance scripts and `examples/check_domain.py` are wiring or I/O. They are not part of this model.
