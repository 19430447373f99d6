/** The DNS part of the domains API (namecheap/api/domains/dns.py): the
    normalisation of a `getHosts` response, the validation and indexed encoding
    of the records sent with `setHosts`, and the parameters of `setCustom`,
    `setDefault` and `getList`. */
module DnsApi {
  import opened Wrappers
  import opened Seqs
  import opened Text
  import opened Values
  import opened DomainName

  // ---------------------------------------------------------------------------
  // get_hosts
  // ---------------------------------------------------------------------------

  /** The SLD/TLD pair `get_hosts` sends: the name split at its first dot. */
  function DomainParams(domainName: string): (r: Dict)
    ensures r.Keys == {"SLD", "TLD"}
    ensures r["SLD"] == VStr(SplitDomainName(domainName).0) && r["TLD"] == VStr(SplitDomainName(domainName).1)
    ensures '.' !in r["SLD"].s
    ensures '.' in domainName ==> r["SLD"].s + "." + r["TLD"].s == domainName
    ensures '.' !in domainName ==> r["SLD"] == VStr(domainName) && r["TLD"] == VStr("")
  {
    var (sld, tld) := SplitDomainName(domainName);
    map["SLD" := VStr(sld), "TLD" := VStr(tld)]
  }

  /** The host list of a `getHosts` result made a list: absent becomes `[]`, a
      single record `[record]`; `TypeError` when the result entry is not a dict. */
  function NormalizeHostList(result: Dict): (r: Result<Dict, Error>)
    ensures "DomainDNSGetHostsResult" !in result ==> r == Ok(result)
    ensures "DomainDNSGetHostsResult" in result ==>
              var hostsResult := result["DomainDNSGetHostsResult"];
              && (r.Ok? <==> hostsResult.VMap?)
              && (r.Ok? ==>
                    r.value.Keys == result.Keys &&
                    var fields := hostsResult.fields;
                    var normalized := r.value["DomainDNSGetHostsResult"];
                    && (forall k :: k in result && k != "DomainDNSGetHostsResult" ==> r.value[k] == result[k])
                    && normalized.VMap?
                    && normalized.fields.Keys == fields.Keys + {"host"}
                    && (forall k :: k in fields && k != "host" ==> normalized.fields[k] == fields[k])
                    && normalized.fields["host"].VList?
                    && ("host" !in fields ==> normalized.fields["host"] == VList([]))
                    && ("host" in fields && fields["host"].VList? ==> normalized.fields["host"] == fields["host"])
                    && ("host" in fields && !fields["host"].VList? ==> normalized.fields["host"] == VList([fields["host"]])))
  {
    if "DomainDNSGetHostsResult" in result then
      var hostsResult := result["DomainDNSGetHostsResult"];
      if !hostsResult.VMap? then Err(TypeError)
      else
        var fields := hostsResult.fields;
        var hosts :=
          if "host" in fields then (if fields["host"].VList? then fields["host"] else VList([fields["host"]]))
          else VList([]);
        Ok(result["DomainDNSGetHostsResult" := VMap(fields["host" := hosts])])
    else Ok(result)
  }

  // ---------------------------------------------------------------------------
  // set_hosts
  // ---------------------------------------------------------------------------

  /** A host record after alias resolution and defaults: the dict with keys
      HostName, RecordType, Address, MXPref (MX only) and TTL. */
  datatype HostEntry = HostEntry(hostName: Value, recordType: Value, address: Value, mxPref: Option<Value>, ttl: Value)

  const MissingNameMessage := "Host record is missing required field 'Name' or 'HostName'"
  const MissingTypeMessage := "Host record is missing required field 'Type' or 'RecordType'"
  const MissingAddressMessage := "Host record is missing required field 'Value' or 'Address'"

  const RecordTypes: set<string> := {"A", "AAAA", "CNAME", "MX", "TXT", "URL", "URL301", "FRAME"}

  const MinTtl := 60
  const MaxTtl := 86400

  /** The value under the first of two alias keys that the record has. */
  function Alias(host: Dict, preferred: string, fallback: string): Option<Value> {
    if preferred in host then Some(host[preferred])
    else if fallback in host then Some(host[fallback])
    else None
  }

  /** The TTL stored for a record: an int (or bool) is turned into its text,
      any other value is kept, and an absent TTL is "1800". */
  function StoredTtl(host: Dict): Value {
    if "TTL" in host then
      var ttl := host["TTL"];
      if IsInt(ttl) then VStr(Str(ttl)) else ttl
    else VStr("1800")
  }

  /** The first pass of `set_hosts` on one record. */
  function NormalizeHost(host: Dict): (r: Result<HostEntry, Error>)
    ensures r.Ok? <==> Alias(host, "Name", "HostName").Some? && Alias(host, "Type", "RecordType").Some?
                       && Alias(host, "Value", "Address").Some?
    ensures Alias(host, "Name", "HostName").None? ==> r == Err(ValueError(MissingNameMessage))
    ensures Alias(host, "Name", "HostName").Some? && Alias(host, "Type", "RecordType").None? ==>
              r == Err(ValueError(MissingTypeMessage))
    ensures (Alias(host, "Name", "HostName").Some? && Alias(host, "Type", "RecordType").Some?
             && Alias(host, "Value", "Address").None?) ==> r == Err(ValueError(MissingAddressMessage))
    ensures r.Ok? ==> r.value.hostName == (if "Name" in host then host["Name"] else host["HostName"])
    ensures r.Ok? ==> r.value.recordType == (if "Type" in host then host["Type"] else host["RecordType"])
    ensures r.Ok? ==> r.value.address == (if "Value" in host then host["Value"] else host["Address"])
    ensures r.Ok? ==> (r.value.mxPref.Some? <==> r.value.recordType == VStr("MX"))
    ensures r.Ok? && r.value.mxPref.Some? ==>
              r.value.mxPref.value == Alias(host, "Priority", "MXPref").UnwrapOr(VStr("10"))
    ensures r.Ok? ==> r.value.ttl == StoredTtl(host)
  {
    var name := Alias(host, "Name", "HostName");
    var recordType := Alias(host, "Type", "RecordType");
    var address := Alias(host, "Value", "Address");
    if name.None? then Err(ValueError(MissingNameMessage))
    else if recordType.None? then Err(ValueError(MissingTypeMessage))
    else if address.None? then Err(ValueError(MissingAddressMessage))
    else
      var mxPref := if recordType.value == VStr("MX") then Some(Alias(host, "Priority", "MXPref").UnwrapOr(VStr("10"))) else None;
      Ok(HostEntry(name.value, recordType.value, address.value, mxPref, StoredTtl(host)))
  }

  /** The first pass over all records: their entries, or the first record's error. */
  function NormalizeAll(hosts: seq<Dict>): Result<seq<HostEntry>, Error> {
    if hosts == [] then Ok([])
    else
      var n := |hosts| - 1;
      match NormalizeAll(hosts[..n])
      case Err(e) => Err(e)
      case Ok(entries) =>
        match NormalizeHost(hosts[n])
        case Err(e) => Err(e)
        case Ok(entry) => Ok(entries + [entry])
  }

  /** Python's `int(x)` rounds a float toward zero. */
  function TruncateReal(x: real): int {
    if x >= 0.0 then x.Floor else -((-x).Floor)
  }

  /** Python's `int(ttl)`: `None` where it raises `ValueError` (unparsable text);
      None, a list or a dict also give `None` here, but `HostProblem` reports
      those as `TypeError` before consulting it. */
  function TtlInt(ttl: Value): Option<int> {
    match ttl
    case VStr(s) => ParseInt(s)
    case VInt(i) => Some(i)
    case VBool(b) => Some(if b then 1 else 0)
    case VReal(x) => Some(TruncateReal(x))
    case _ => None
  }

  predicate ValidRecordType(recordType: Value) {
    recordType.VStr? && recordType.s in RecordTypes
  }

  /** The second pass of `set_hosts` on one entry: the error it raises, if any. */
  function HostProblem(entry: HostEntry): (r: Option<Error>)
    ensures r.None? <==> ValidRecordType(entry.recordType) && TtlInt(entry.ttl).Some?
                         && MinTtl <= TtlInt(entry.ttl).value <= MaxTtl
    ensures !ValidRecordType(entry.recordType) ==> r == Some(InvalidRecordType(entry.recordType))
    ensures r == Some(TypeError) <==> ValidRecordType(entry.recordType) && (entry.ttl.VNone? || entry.ttl.VList? || entry.ttl.VMap?)
    ensures ValidRecordType(entry.recordType) && !(entry.ttl.VNone? || entry.ttl.VList? || entry.ttl.VMap?) && r.Some? ==>
              r == Some(InvalidTtl(entry.ttl))
  {
    if !ValidRecordType(entry.recordType) then Some(InvalidRecordType(entry.recordType))
    else if entry.ttl.VNone? || entry.ttl.VList? || entry.ttl.VMap? then Some(TypeError)
    else if TtlInt(entry.ttl).None? || TtlInt(entry.ttl).value < MinTtl || TtlInt(entry.ttl).value > MaxTtl then
      Some(InvalidTtl(entry.ttl))
    else None
  }

  /** The first error of the second pass, in record order. */
  function FirstProblem(entries: seq<HostEntry>): Option<Error> {
    if entries == [] then None
    else
      var n := |entries| - 1;
      if FirstProblem(entries[..n]).Some? then FirstProblem(entries[..n]) else HostProblem(entries[n])
  }

  /** The fields of the indexed parameters `set_hosts` sends. */
  datatype HostField = HostNameField | RecordTypeField | AddressField | MXPrefField | TTLField

  /** A request parameter name: a plain one (`SLD`, `TLD`) or a field with a
      1-based record index; `KeyText` gives the name as sent. */
  datatype ParamKey = Named(name: string) | Indexed(field: HostField, index: nat)

  type Params = map<ParamKey, Value>

  function FieldName(f: HostField): string {
    match f
    case HostNameField => "HostName"
    case RecordTypeField => "RecordType"
    case AddressField => "Address"
    case MXPrefField => "MXPref"
    case TTLField => "TTL"
  }

  /** The parameter's name on the wire: `f"{field}{index}"` for an indexed one. */
  function KeyText(k: ParamKey): string {
    match k
    case Named(name) => name
    case Indexed(f, i) => FieldName(f) + NatToStr(i)
  }

  lemma FieldNamesByFirstChar(f: HostField, g: HostField)
    ensures FieldName(f)[0] == FieldName(g)[0] ==> f == g
  {
  }

  /** An indexed name is longer than `SLD` and `TLD`, starts like its field's
      name and ends in the index's digits. */
  lemma IndexedKeyText(f: HostField, i: nat)
    ensures |KeyText(Indexed(f, i))| > 3
    ensures KeyText(Indexed(f, i))[0] == FieldName(f)[0]
    ensures KeyText(Indexed(f, i))[|FieldName(f)|..] == NatToStr(i)
  {
    assert |FieldName(f)| >= 3 && |NatToStr(i)| >= 1;
  }

  /** No two parameter names of `set_hosts` render to the same text, so
      `HostName1`, `HostName12` and `TTL1` are told apart. */
  lemma KeyTextInjective(a: ParamKey, b: ParamKey)
    requires a.Named? ==> a.name in {"SLD", "TLD"}
    requires b.Named? ==> b.name in {"SLD", "TLD"}
    ensures KeyText(a) == KeyText(b) <==> a == b
  {
    if a.Indexed? {
      IndexedKeyText(a.field, a.index);
    }
    if b.Indexed? {
      IndexedKeyText(b.field, b.index);
    }
    if a.Indexed? && b.Indexed? && KeyText(a) == KeyText(b) {
      FieldNamesByFirstChar(a.field, b.field);
      assert DigitsValue(NatToStr(a.index)) == DigitsValue(NatToStr(b.index));
    }
  }

  lemma FirstKeyText()
    ensures KeyText(Indexed(HostNameField, 1)) == "HostName1"
    ensures KeyText(Indexed(TTLField, 12)) == "TTL12"
  {
    assert NatToStr(12) == NatToStr(1) + [DigitChar(2)];
  }

  /** The value record `entry` sends for `field`: `None` only for the MXPref
      of a record that is not MX. */
  function FieldValue(entry: HostEntry, field: HostField): Option<Value> {
    match field
    case HostNameField => Some(entry.hostName)
    case RecordTypeField => Some(entry.recordType)
    case AddressField => Some(entry.address)
    case MXPrefField => entry.mxPref
    case TTLField => Some(entry.ttl)
  }

  /** Adds the parameters of the entry at 0-based position `i` under index
      `i + 1`, one key at a time: HostName, RecordType, Address, MXPref (MX
      only), TTL. */
  function AddHost(p: Params, entry: HostEntry, i: nat): Params {
    var q := p[Indexed(HostNameField, i + 1) := entry.hostName][Indexed(RecordTypeField, i + 1) := entry.recordType]
              [Indexed(AddressField, i + 1) := entry.address];
    var q := if entry.mxPref.Some? then q[Indexed(MXPrefField, i + 1) := entry.mxPref.value] else q;
    q[Indexed(TTLField, i + 1) := entry.ttl]
  }

  /** What `AddHost` does to one key: a key of index `i + 1` gets the entry's
      value for its field, if the entry sends that field; any other key is left
      as it was. */
  lemma AddHostAt(p: Params, entry: HostEntry, i: nat, k: ParamKey)
    ensures var r := AddHost(p, entry, i);
            if k.Indexed? && k.index == i + 1 then
              (k in r <==> FieldValue(entry, k.field).Some? || k in p)
              && (FieldValue(entry, k.field).Some? ==> r[k] == FieldValue(entry, k.field).value)
            else
              (k in r <==> k in p) && (k in p ==> r[k] == p[k])
  {
  }

  /** `base` followed by the parameters of every entry, in order. */
  function EncodeHosts(base: Params, entries: seq<HostEntry>): Params {
    if entries == [] then base
    else AddHost(EncodeHosts(base, entries[..|entries| - 1]), entries[|entries| - 1], |entries| - 1)
  }

  function SetHostsBase(domainName: string): (r: Params)
    ensures forall k :: k in r ==> k.Named?
  {
    var (sld, tld) := SplitDomainName(domainName);
    map[Named("SLD") := VStr(sld), Named("TLD") := VStr(tld)]
  }

  /** What `set_hosts` sends, or the error it raises. */
  function SetHostsParams(domainName: string, hosts: seq<Dict>): Result<Params, Error> {
    match NormalizeAll(hosts)
    case Err(e) => Err(e)
    case Ok(entries) =>
      match FirstProblem(entries)
      case Some(e) => Err(e)
      case None => Ok(EncodeHosts(SetHostsBase(domainName), entries))
  }

  lemma {:induction false} NormalizeAllFailurePersists(hosts: seq<Dict>, n: nat)
    requires n <= |hosts| && NormalizeAll(hosts[..n]).Err?
    ensures NormalizeAll(hosts) == NormalizeAll(hosts[..n])
    decreases |hosts| - n
  {
    if n < |hosts| {
      assert hosts[..n + 1][..n] == hosts[..n];
      NormalizeAllFailurePersists(hosts, n + 1);
    } else {
      assert hosts[..n] == hosts;
    }
  }

  lemma {:induction false} FirstProblemPersists(entries: seq<HostEntry>, n: nat)
    requires n <= |entries| && FirstProblem(entries[..n]).Some?
    ensures FirstProblem(entries) == FirstProblem(entries[..n])
    decreases |entries| - n
  {
    if n < |entries| {
      assert entries[..n + 1][..n] == entries[..n];
      FirstProblemPersists(entries, n + 1);
    } else {
      assert entries[..n] == entries;
    }
  }

  /** One record of the first loop of `set_hosts`: its aliases and defaults resolved. */
  method ResolveRecord(host: Dict) returns (r: Result<HostEntry, Error>)
    ensures r == NormalizeHost(host)
  {
    var hostName, recordType, address: Value;
    if "Name" in host {
      hostName := host["Name"];
    } else if "HostName" in host {
      hostName := host["HostName"];
    } else {
      return Err(ValueError(MissingNameMessage));
    }
    if "Type" in host {
      recordType := host["Type"];
    } else if "RecordType" in host {
      recordType := host["RecordType"];
    } else {
      return Err(ValueError(MissingTypeMessage));
    }
    if "Value" in host {
      address := host["Value"];
    } else if "Address" in host {
      address := host["Address"];
    } else {
      return Err(ValueError(MissingAddressMessage));
    }
    var mxPref: Option<Value> := None;
    if recordType == VStr("MX") {
      if "Priority" in host {
        mxPref := Some(host["Priority"]);
      } else if "MXPref" in host {
        mxPref := Some(host["MXPref"]);
      } else {
        mxPref := Some(VStr("10"));
      }
    }
    var ttl: Value;
    if "TTL" in host {
      ttl := host["TTL"];
      if IsInt(ttl) {
        ttl := VStr(Str(ttl));
      }
    } else {
      ttl := VStr("1800");
    }
    r := Ok(HostEntry(hostName, recordType, address, mxPref, ttl));
  }

  /** The first loop of `set_hosts`: resolve each record's aliases and defaults. */
  method NormalizeHosts(hosts: seq<Dict>) returns (r: Result<seq<HostEntry>, Error>)
    ensures r == NormalizeAll(hosts)
  {
    var normalized: seq<HostEntry> := [];
    for i := 0 to |hosts|
      invariant NormalizeAll(hosts[..i]) == Ok(normalized)
    {
      PrefixOfPrefix(hosts, i + 1);
      var entry := ResolveRecord(hosts[i]);
      if entry.Err? {
        NormalizeAllFailurePersists(hosts, i + 1);
        return Err(entry.error);
      }
      normalized := normalized + [entry.value];
    }
    assert hosts[..|hosts|] == hosts;
    r := Ok(normalized);
  }

  /** One entry of the second loop of `set_hosts`: the error its type or TTL raises, if any. */
  method CheckRecord(host: HostEntry) returns (problem: Option<Error>)
    ensures problem == HostProblem(host)
  {
    if !(host.recordType.VStr? && host.recordType.s in RecordTypes) {
      return Some(InvalidRecordType(host.recordType));
    }
    var ttl: int;
    match host.ttl {
      case VStr(s) =>
        var parsed := ParseInt(s);
        if parsed.None? {
          return Some(InvalidTtl(host.ttl));
        }
        ttl := parsed.value;
      case VInt(n) => ttl := n;
      case VBool(b) => ttl := if b then 1 else 0;
      case VReal(x) => ttl := TruncateReal(x);
      case VNone =>
        return Some(TypeError);
      case VList(_) =>
        return Some(TypeError);
      case VMap(_) =>
        return Some(TypeError);
    }
    if ttl < MinTtl || ttl > MaxTtl {
      return Some(InvalidTtl(host.ttl));
    }
    problem := None;
  }

  /** The assignments of one entry in the second loop of `set_hosts`. */
  method AddHostParams(params: Params, host: HostEntry, i: nat) returns (r: Params)
    ensures r == AddHost(params, host, i)
  {
    r := params[Indexed(HostNameField, i + 1) := host.hostName];
    r := r[Indexed(RecordTypeField, i + 1) := host.recordType];
    r := r[Indexed(AddressField, i + 1) := host.address];
    if host.mxPref.Some? {
      r := r[Indexed(MXPrefField, i + 1) := host.mxPref.value];
    }
    r := r[Indexed(TTLField, i + 1) := host.ttl];
  }

  /** The second loop of `set_hosts`: check each entry's type and TTL and add
      its indexed parameters to `base`. */
  method EncodeEntries(base: Params, normalized: seq<HostEntry>) returns (r: Result<Params, Error>)
    ensures FirstProblem(normalized).Some? ==> r == Err(FirstProblem(normalized).value)
    ensures FirstProblem(normalized).None? ==> r == Ok(EncodeHosts(base, normalized))
  {
    var params := base;
    for i := 0 to |normalized|
      invariant FirstProblem(normalized[..i]).None?
      invariant params == EncodeHosts(base, normalized[..i])
    {
      var host := normalized[i];
      PrefixOfPrefix(normalized, i + 1);
      var problem := CheckRecord(host);
      if problem.Some? {
        FirstProblemPersists(normalized, i + 1);
        return Err(problem.value);
      }
      assert normalized[..i + 1][i] == host;
      assert FirstProblem(normalized[..i + 1]) == HostProblem(host);
      params := AddHostParams(params, host, i);
      assert params == EncodeHosts(base, normalized[..i + 1]);
    }
    assert normalized[..|normalized|] == normalized;
    r := Ok(params);
  }

  /** `set_hosts`: the parameters it sends, or the error it raises. */
  method SetHosts(domainName: string, hosts: seq<Dict>) returns (r: Result<Params, Error>)
    ensures r == SetHostsParams(domainName, hosts)
  {
    var (sld, tld) := SplitDomainName(domainName);
    var params: Params := map[Named("SLD") := VStr(sld), Named("TLD") := VStr(tld)];
    var normalized := NormalizeHosts(hosts);
    if normalized.Err? {
      return Err(normalized.error);
    }
    r := EncodeEntries(params, normalized.value);
  }

  // ---------------------------------------------------------------------------
  // Properties of set_hosts
  // ---------------------------------------------------------------------------

  /** The first pass succeeds exactly when every record does, keeping one entry
      per record in order; otherwise it reports the first failing record. */
  lemma {:induction false} NormalizeAllSpec(hosts: seq<Dict>)
    ensures NormalizeAll(hosts).Ok? <==> forall i :: 0 <= i < |hosts| ==> NormalizeHost(hosts[i]).Ok?
    ensures NormalizeAll(hosts).Ok? ==>
              |NormalizeAll(hosts).value| == |hosts|
              && forall i :: 0 <= i < |hosts| ==> NormalizeAll(hosts).value[i] == NormalizeHost(hosts[i]).value
    ensures NormalizeAll(hosts).Err? ==>
              exists i :: 0 <= i < |hosts| && NormalizeHost(hosts[i]).Err?
                          && NormalizeAll(hosts).error == NormalizeHost(hosts[i]).error
                          && forall j :: 0 <= j < i ==> NormalizeHost(hosts[j]).Ok?
  {
    if hosts != [] {
      var n := |hosts| - 1;
      NormalizeAllSpec(hosts[..n]);
      assert forall i :: 0 <= i < n ==> hosts[..n][i] == hosts[i];
      if NormalizeAll(hosts[..n]).Ok? && NormalizeHost(hosts[n]).Err? {
        assert forall j :: 0 <= j < n ==> NormalizeHost(hosts[j]).Ok?;
      }
    }
  }

  /** The first pass keeps one entry per record. */
  lemma {:induction false} NormalizeAllLength(hosts: seq<Dict>)
    requires NormalizeAll(hosts).Ok?
    ensures |NormalizeAll(hosts).value| == |hosts|
  {
    if hosts != [] {
      NormalizeAllLength(hosts[..|hosts| - 1]);
    }
  }

  /** The entry at position `i` is that record's own normalisation. */
  lemma {:induction false} NormalizeAllAt(hosts: seq<Dict>, i: nat)
    requires NormalizeAll(hosts).Ok? && i < |hosts|
    ensures NormalizeHost(hosts[i]).Ok?
    ensures i < |NormalizeAll(hosts).value| && NormalizeAll(hosts).value[i] == NormalizeHost(hosts[i]).value
  {
    var n := |hosts| - 1;
    NormalizeAllLength(hosts[..n]);
    if i < n {
      NormalizeAllAt(hosts[..n], i);
      assert hosts[..n][i] == hosts[i];
    }
  }

  /** The second pass reports an error exactly when some entry has one, and then
      the error of the first such entry. */
  lemma {:induction false} FirstProblemSpec(entries: seq<HostEntry>)
    ensures FirstProblem(entries).None? <==> forall i :: 0 <= i < |entries| ==> HostProblem(entries[i]).None?
    ensures FirstProblem(entries).Some? ==>
              exists i :: 0 <= i < |entries| && FirstProblem(entries) == HostProblem(entries[i])
                          && forall j :: 0 <= j < i ==> HostProblem(entries[j]).None?
  {
    if entries != [] {
      var n := |entries| - 1;
      var prev := entries[..n];
      FirstProblemSpec(prev);
      assert forall i :: 0 <= i < n ==> prev[i] == entries[i];
      if FirstProblem(prev).Some? {
        assert FirstProblem(entries) == FirstProblem(prev);
        var i :| 0 <= i < n && FirstProblem(prev) == HostProblem(prev[i])
                 && forall j :: 0 <= j < i ==> HostProblem(prev[j]).None?;
        assert HostProblem(entries[i]).Some?;
        assert forall j :: 0 <= j < i ==> HostProblem(entries[j]).None?;
      } else {
        assert FirstProblem(entries) == HostProblem(entries[n]);
        NoProblemsExtend(entries, n);
      }
    }
  }

  lemma NoProblemsExtend(entries: seq<HostEntry>, n: nat)
    requires n < |entries| && forall j :: 0 <= j < n ==> HostProblem(entries[..n][j]).None?
    ensures forall j :: 0 <= j < n ==> HostProblem(entries[j]).None?
    ensures HostProblem(entries[n]).None? && n + 1 == |entries| ==>
              forall j :: 0 <= j < |entries| ==> HostProblem(entries[j]).None?
  {
    assert forall j :: 0 <= j < n ==> entries[..n][j] == entries[j];
  }

  /** The encoding, key by key: the base keys are kept, and the key of field
      `f` with index `j` is present exactly when entry `j - 1` sends `f`, with
      that entry's value. */
  lemma {:induction false} EncodeHostsAt(base: Params, entries: seq<HostEntry>, k: ParamKey)
    requires forall b :: b in base ==> b.Named?
    ensures k.Named? ==> (k in EncodeHosts(base, entries) <==> k in base)
    ensures k.Named? && k in base ==> EncodeHosts(base, entries)[k] == base[k]
    ensures k.Indexed? ==>
              (k in EncodeHosts(base, entries) <==>
                 1 <= k.index <= |entries| && FieldValue(entries[k.index - 1], k.field).Some?)
    ensures k.Indexed? && k in EncodeHosts(base, entries) ==>
              EncodeHosts(base, entries)[k] == FieldValue(entries[k.index - 1], k.field).value
  {
    if entries != [] {
      var n := |entries| - 1;
      EncodeHostsAt(base, entries[..n], k);
      AddHostAt(EncodeHosts(base, entries[..n]), entries[n], n, k);
      if k.Indexed? && 1 <= k.index <= n {
        assert entries[..n][k.index - 1] == entries[k.index - 1];
      }
    }
  }

  /** `set_hosts` succeeds exactly when every record has all three fields, a
      valid type and a TTL that is an integer in 60..86400; a missing field is
      reported even when an earlier record has a bad type or TTL. */
  lemma SetHostsSucceedsIff(domainName: string, hosts: seq<Dict>)
    ensures SetHostsParams(domainName, hosts).Ok? <==>
              forall i :: 0 <= i < |hosts| ==>
                NormalizeHost(hosts[i]).Ok? && HostProblem(NormalizeHost(hosts[i]).value).None?
    ensures (exists i :: 0 <= i < |hosts| && NormalizeHost(hosts[i]).Err?) ==>
              SetHostsParams(domainName, hosts).Err? && SetHostsParams(domainName, hosts).error.ValueError?
  {
    NormalizeAllSpec(hosts);
    if NormalizeAll(hosts).Ok? {
      FirstProblemSpec(NormalizeAll(hosts).value);
    }
  }

  /** On success the only plain keys are SLD and TLD, with the split domain name. */
  lemma SetHostsNamedKeys(domainName: string, hosts: seq<Dict>)
    requires SetHostsParams(domainName, hosts).Ok?
    ensures var params := SetHostsParams(domainName, hosts).value;
            && Named("SLD") in params && params[Named("SLD")] == DomainParams(domainName)["SLD"]
            && Named("TLD") in params && params[Named("TLD")] == DomainParams(domainName)["TLD"]
            && (forall k: ParamKey :: k in params && k.Named? ==> k in {Named("SLD"), Named("TLD")})
  {
    var entries := NormalizeAll(hosts).value;
    var base := SetHostsBase(domainName);
    var params := SetHostsParams(domainName, hosts).value;
    assert params == EncodeHosts(base, entries);
    EncodeHostsAt(base, entries, Named("SLD"));
    EncodeHostsAt(base, entries, Named("TLD"));
    forall k: ParamKey | k in params && k.Named?
      ensures k in {Named("SLD"), Named("TLD")}
    {
      EncodeHostsAt(base, entries, k);
    }
  }

  /** On success the key of field `field` with index `i + 1` is sent exactly
      when record `i`'s entry sends that field, with that entry's value. */
  lemma SetHostsIndexedKey(domainName: string, hosts: seq<Dict>, field: HostField, i: nat)
    requires SetHostsParams(domainName, hosts).Ok? && i < |hosts|
    ensures NormalizeHost(hosts[i]).Ok?
    ensures Indexed(field, i + 1) in SetHostsParams(domainName, hosts).value
            <==> FieldValue(NormalizeHost(hosts[i]).value, field).Some?
    ensures Indexed(field, i + 1) in SetHostsParams(domainName, hosts).value ==>
              SetHostsParams(domainName, hosts).value[Indexed(field, i + 1)]
              == FieldValue(NormalizeHost(hosts[i]).value, field).value
  {
    NormalizeAllAt(hosts, i);
    var entries := NormalizeAll(hosts).value;
    assert entries[i] == NormalizeHost(hosts[i]).value;
    EncodeHostsAt(SetHostsBase(domainName), entries, Indexed(field, i + 1));
  }

  /** On success no indexed key is sent beyond the number of records. */
  lemma SetHostsNoExtraKeys(domainName: string, hosts: seq<Dict>, field: HostField, j: nat)
    requires SetHostsParams(domainName, hosts).Ok? && (j == 0 || j > |hosts|)
    ensures Indexed(field, j) !in SetHostsParams(domainName, hosts).value
  {
    NormalizeAllLength(hosts);
    EncodeHostsAt(SetHostsBase(domainName), NormalizeAll(hosts).value, Indexed(field, j));
  }

  /** An `MXPref` parameter is sent for a record exactly when it is an MX
      record; any MXPref or Priority given for another type is dropped. */
  lemma SetHostsMxPref(domainName: string, hosts: seq<Dict>, i: nat)
    requires SetHostsParams(domainName, hosts).Ok? && i < |hosts|
    ensures NormalizeHost(hosts[i]).Ok?
    ensures Indexed(MXPrefField, i + 1) in SetHostsParams(domainName, hosts).value
            <==> NormalizeHost(hosts[i]).value.recordType == VStr("MX")
  {
    SetHostsIndexedKey(domainName, hosts, MXPrefField, i);
  }

  /** A TTL written with digit grouping, such as "3_600", is read as the digits
      without the underscore, as Python's `int()` reads it. */
  lemma GroupedTtl(a: string, b: string)
    requires IsDigits(a) && IsDigits(b)
    ensures TtlInt(VStr(a + "_" + b)) == Some(DigitsValue(a + b))
  {
    ParseIntGrouped(a, b);
  }

  /** An integer TTL in range passes validation and is sent as its decimal text. */
  lemma IntTtlAccepted(host: Dict, n: int)
    requires "TTL" in host && host["TTL"] == VInt(n) && MinTtl <= n <= MaxTtl
    ensures StoredTtl(host) == VStr(IntToStr(n))
    ensures TtlInt(StoredTtl(host)) == Some(n)
  {
    ParseIntOfIntToStr(n);
  }

  // ---------------------------------------------------------------------------
  // set_default, set_custom, get_list
  // ---------------------------------------------------------------------------

  /** `set_default`: the first-dot split, its SLD sent as `DomainName`. */
  function SetDefaultParams(domainName: string): (r: Dict)
    ensures r.Keys == {"DomainName", "TLD"}
    ensures r["DomainName"] == VStr(SplitDomainName(domainName).0) && r["TLD"] == VStr(SplitDomainName(domainName).1)
    ensures '.' !in r["DomainName"].s
    ensures '.' in domainName ==> r["DomainName"].s + "." + r["TLD"].s == domainName
    ensures '.' !in domainName ==> r["DomainName"] == VStr(domainName) && r["TLD"] == VStr("")
  {
    var (sld, tld) := SplitDomainName(domainName);
    map["DomainName" := VStr(sld), "TLD" := VStr(tld)]
  }

  const MaxNameservers := 12

  /** `set_custom`: at most 12 nameservers, sent comma-joined. */
  function SetCustomParams(domainName: string, nameservers: seq<string>): (r: Result<Dict, Error>)
    ensures r.Err? <==> |nameservers| > MaxNameservers
    ensures r.Err? ==> r.error == ValueError("Maximum of 12 nameservers can be set")
    ensures r.Ok? ==> r.value.Keys == {"DomainName", "TLD", "Nameservers"}
    ensures r.Ok? ==> r.value["DomainName"] == VStr(SplitDomainName(domainName).0)
                      && r.value["TLD"] == VStr(SplitDomainName(domainName).1)
    ensures r.Ok? ==> r.value["Nameservers"] == VStr(Join(",", nameservers))
  {
    if |nameservers| > MaxNameservers then Err(ValueError("Maximum of 12 nameservers can be set"))
    else
      var (sld, tld) := SplitDomainName(domainName);
      Ok(map["DomainName" := VStr(sld), "TLD" := VStr(tld), "Nameservers" := VStr(Join(",", nameservers))])
  }

  /** The `Nameservers` parameter splits back into the given list, in order. */
  lemma SetCustomRoundTrip(domainName: string, nameservers: seq<string>)
    requires 1 <= |nameservers| <= MaxNameservers
    requires forall k :: 0 <= k < |nameservers| ==> ',' !in nameservers[k]
    ensures SetCustomParams(domainName, nameservers).Ok?
    ensures Split(SetCustomParams(domainName, nameservers).value["Nameservers"].s, ',') == nameservers
  {
    SplitJoin(nameservers, ',');
  }

  function GetListParams(domainName: string): (r: Dict)
    ensures r == DomainParams(domainName)
  {
    var (sld, tld) := SplitDomainName(domainName);
    map["SLD" := VStr(sld), "TLD" := VStr(tld)]
  }
}
