/** The record-editing operations of `EnhancedDnsAPI` (namecheap/enhanced/dns.py):
    each reads the current host list from a `getHosts` result, rewrites it in
    one loop, and sends the new list with a single `set_hosts` call. The model
    takes the `getHosts` result as input and returns the list that call is
    given. */
module EnhancedDns {
  import opened Wrappers
  import opened Text
  import opened Values
  import opened Seqs

  /** A host record as the operations emit it: a dict with keys Name, Type,
      Address and TTL, and MXPref exactly when `mxPref` is present. */
  datatype HostRecord = HostRecord(name: Value, recordType: Value, address: Value, mxPref: Option<Value>, ttl: Value)

  /** The dict a record is sent as. */
  function RecordDict(rec: HostRecord): (d: Dict)
    ensures d.Keys == {"Name", "Type", "Address", "TTL"} + (if rec.mxPref.Some? then {"MXPref"} else {})
    ensures d["Name"] == rec.name && d["Type"] == rec.recordType && d["Address"] == rec.address
    ensures d["TTL"] == rec.ttl && (rec.mxPref.Some? ==> d["MXPref"] == rec.mxPref.value)
  {
    map["Name" := rec.name, "Type" := rec.recordType, "Address" := rec.address, "TTL" := rec.ttl]
    + (if rec.mxPref.Some? then map["MXPref" := rec.mxPref.value] else map[])
  }

  function RecordValues(recs: seq<HostRecord>): (r: seq<Value>)
    ensures |r| == |recs|
    ensures forall j :: 0 <= j < |r| ==> r[j] == VMap(RecordDict(recs[j]))
  {
    seq(|recs|, j requires 0 <= j < |recs| => VMap(RecordDict(recs[j])))
  }

  // ---------------------------------------------------------------------------
  // The existing records
  // ---------------------------------------------------------------------------

  /** The records listed under `DomainDNSGetHostsResult.host`, made a list.
      Python's `"host" in x` tests a substring of a str and an element of a
      list, and `x["host"]` then fails on both; on None, numbers and bools the
      `in` itself raises. */
  function ExistingHosts(result: Dict): (r: Result<seq<Value>, Error>)
    ensures "DomainDNSGetHostsResult" !in result ==> r == Ok([])
    ensures "DomainDNSGetHostsResult" in result && result["DomainDNSGetHostsResult"].VMap? ==>
              var fields := result["DomainDNSGetHostsResult"].fields;
              && ("host" !in fields ==> r == Ok([]))
              && ("host" in fields && fields["host"].VList? ==> r == Ok(fields["host"].items))
              && ("host" in fields && !fields["host"].VList? ==> r == Ok([fields["host"]]))
    ensures r.Err? ==> r.error == TypeError
    ensures r.Err? <==> "DomainDNSGetHostsResult" in result &&
                        match result["DomainDNSGetHostsResult"]
                        case VMap(_) => false
                        case VStr(s) => Contains(s, "host")
                        case VList(items) => VStr("host") in items
                        case _ => true
  {
    if "DomainDNSGetHostsResult" !in result then Ok([])
    else
      match result["DomainDNSGetHostsResult"]
      case VMap(fields) =>
        if "host" in fields then Ok(AsList(fields["host"])) else Ok([])
      case VStr(s) => if Contains(s, "host") then Err(TypeError) else Ok([])
      case VList(items) => if VStr("host") in items then Err(TypeError) else Ok([])
      case _ => Err(TypeError)
  }

  /** An existing record re-emitted unchanged: exactly the five keys, with
      defaults "" for Address, "10" for MXPref and "1800" for TTL. */
  function Kept(d: Dict): HostRecord {
    HostRecord(Get(d, "Name", VStr("")), Get(d, "Type", VStr("")), Get(d, "Address", VStr("")),
               Some(Get(d, "MXPref", VStr("10"))), Get(d, "TTL", VStr("1800")))
  }

  /** Re-emitting a re-emitted record changes nothing. */
  lemma KeptStable(d: Dict)
    ensures Kept(RecordDict(Kept(d))) == Kept(d)
  {
    var e := RecordDict(Kept(d));
    assert "Name" in e && "Type" in e && "Address" in e && "MXPref" in e && "TTL" in e;
  }

  /** Whether a record has the given name and type (absent ones count as ""). */
  predicate Matches(d: Dict, host: string, recordType: string) {
    Get(d, "Name", VStr("")) == VStr(host) && Get(d, "Type", VStr("")) == VStr(recordType)
  }

  // ---------------------------------------------------------------------------
  // update_record
  // ---------------------------------------------------------------------------

  /** The record that replaces a matching one. */
  function Replacement(d: Dict, host: string, recordType: string, value: string, ttl: int, priority: Option<int>): (r: HostRecord)
    ensures r.name == VStr(host) && r.recordType == VStr(recordType) && r.address == VStr(value)
    ensures r.ttl == VStr(IntToStr(ttl))
    ensures recordType == "MX" && priority.Some? ==> r.mxPref == Some(VStr(IntToStr(priority.value)))
    ensures !(recordType == "MX" && priority.Some?) ==>
              r.mxPref == (if "MXPref" in d && Truthy(d["MXPref"]) then Some(d["MXPref"]) else None)
  {
    var mxPref :=
      if recordType == "MX" && priority.Some? then Some(VStr(IntToStr(priority.value)))
      else if "MXPref" in d && Truthy(d["MXPref"]) then Some(d["MXPref"])
      else None;
    HostRecord(VStr(host), VStr(recordType), VStr(value), mxPref, VStr(IntToStr(ttl)))
  }

  /** The record appended when none matched; an MX record gets MXPref
      `priority`, or "10" without one. */
  function NewRecord(host: string, recordType: string, value: string, ttl: int, priority: Option<int>): (r: HostRecord)
    ensures r.name == VStr(host) && r.recordType == VStr(recordType) && r.address == VStr(value)
    ensures r.ttl == VStr(IntToStr(ttl))
    ensures r.mxPref.Some? <==> recordType == "MX"
    ensures recordType == "MX" ==> r.mxPref.value == VStr(IntToStr(priority.UnwrapOr(10)))
  {
    HostRecord(VStr(host), VStr(recordType), VStr(value),
               if recordType == "MX" then Some(VStr(IntToStr(priority.UnwrapOr(10)))) else None,
               VStr(IntToStr(ttl)))
  }

  /** The loop of `update_record`: every matching dict record replaced, every
      other dict record re-emitted. */
  function UpdatedHosts(records: seq<Value>, host: string, recordType: string, value: string, ttl: int,
                        priority: Option<int>): seq<HostRecord>
  {
    if records == [] then []
    else
      var n := |records| - 1;
      var prev := UpdatedHosts(records[..n], host, recordType, value, ttl, priority);
      if !records[n].VMap? then prev
      else
        var d := records[n].fields;
        prev + [if Matches(d, host, recordType) then Replacement(d, host, recordType, value, ttl, priority) else Kept(d)]
  }

  /** Whether some dict record matches. */
  predicate AnyMatch(records: seq<Value>, host: string, recordType: string) {
    exists v :: v in records && v.VMap? && Matches(v.fields, host, recordType)
  }

  /** The host list `update_record` sends. */
  function UpdateRecordHosts(records: seq<Value>, host: string, recordType: string, value: string, ttl: int,
                             priority: Option<int>): seq<HostRecord>
  {
    UpdatedHosts(records, host, recordType, value, ttl, priority)
    + (if AnyMatch(records, host, recordType) then [] else [NewRecord(host, recordType, value, ttl, priority)])
  }

  lemma AnyMatchStep(records: seq<Value>, n: nat, host: string, recordType: string)
    requires n < |records|
    ensures AnyMatch(records[..n + 1], host, recordType) <==>
              AnyMatch(records[..n], host, recordType) || (records[n].VMap? && Matches(records[n].fields, host, recordType))
  {
    PrefixStep(records, n);
  }

  /** `update_record`: the host list it sends, or the error raised while
      reading the existing records. */
  method UpdateRecord(result: Dict, host: string, recordType: string, value: string, ttl: int, priority: Option<int>)
    returns (r: Result<seq<HostRecord>, Error>)
    ensures r.Err? <==> ExistingHosts(result).Err?
    ensures r.Err? ==> r.error == ExistingHosts(result).error
    ensures r.Ok? ==> r.value == UpdateRecordHosts(ExistingHosts(result).value, host, recordType, value, ttl, priority)
  {
    var existing := ExistingHosts(result);
    if existing.Err? {
      return Err(existing.error);
    }
    var hostRecords := existing.value;
    var found := false;
    var newHosts: seq<HostRecord> := [];
    for i := 0 to |hostRecords|
      invariant newHosts == UpdatedHosts(hostRecords[..i], host, recordType, value, ttl, priority)
      invariant found == AnyMatch(hostRecords[..i], host, recordType)
    {
      PrefixOfPrefix(hostRecords, i + 1);
      AnyMatchStep(hostRecords, i, host, recordType);
      var hostRecord := hostRecords[i];
      if !hostRecord.VMap? {
        continue;
      }
      var d := hostRecord.fields;
      var recordName := Get(d, "Name", VStr(""));
      var recordTypeExisting := Get(d, "Type", VStr(""));
      if recordName == VStr(host) && recordTypeExisting == VStr(recordType) {
        var newRecord := HostRecord(VStr(host), VStr(recordType), VStr(value), None, VStr(IntToStr(ttl)));
        if recordType == "MX" && priority.Some? {
          newRecord := newRecord.(mxPref := Some(VStr(IntToStr(priority.value))));
        } else if "MXPref" in d && Truthy(d["MXPref"]) {
          newRecord := newRecord.(mxPref := Some(d["MXPref"]));
        }
        newHosts := newHosts + [newRecord];
        found := true;
      } else {
        newHosts := newHosts + [HostRecord(recordName, recordTypeExisting, Get(d, "Address", VStr("")),
                                           Some(Get(d, "MXPref", VStr("10"))), Get(d, "TTL", VStr("1800")))];
      }
    }
    assert hostRecords[..|hostRecords|] == hostRecords;
    if !found {
      var newRecord := HostRecord(VStr(host), VStr(recordType), VStr(value), None, VStr(IntToStr(ttl)));
      if recordType == "MX" {
        newRecord := newRecord.(mxPref := Some(VStr(IntToStr(if priority.Some? then priority.value else 10))));
      }
      newHosts := newHosts + [newRecord];
    }
    r := Ok(newHosts);
  }

  /** The loop of `update_record` works record by record: entry `j` of its
      output comes from the `j`-th dict record, replaced when it matches and
      re-emitted otherwise; no record is dropped, moved or added. */
  lemma {:induction false} UpdatedHostsAt(records: seq<Value>, host: string, recordType: string, value: string,
                                          ttl: int, priority: Option<int>)
    ensures var out := UpdatedHosts(records, host, recordType, value, ttl, priority);
            var ds := Dicts(records);
            && |out| == |ds|
            && forall j :: 0 <= j < |ds| ==>
                 out[j] == if Matches(ds[j], host, recordType) then Replacement(ds[j], host, recordType, value, ttl, priority)
                           else Kept(ds[j])
  {
    if records != [] {
      UpdatedHostsAt(records[..|records| - 1], host, recordType, value, ttl, priority);
    }
  }

  lemma AnyMatchDicts(records: seq<Value>, host: string, recordType: string)
    ensures AnyMatch(records, host, recordType) <==>
              exists d :: d in Dicts(records) && Matches(d, host, recordType)
  {
    DictsMembers(records);
    if AnyMatch(records, host, recordType) {
      var v :| v in records && v.VMap? && Matches(v.fields, host, recordType);
      assert VMap(v.fields) == v;
    }
  }

  /** `update_record` replaces every matching record in place (not only the
      first), keeps every other record where it was, and appends the new
      record exactly when nothing matched; the requested record is then in the
      list. */
  lemma UpdateRecordSpec(records: seq<Value>, host: string, recordType: string, value: string, ttl: int,
                         priority: Option<int>)
    ensures var out := UpdateRecordHosts(records, host, recordType, value, ttl, priority);
            var ds := Dicts(records);
            var matched := exists d :: d in ds && Matches(d, host, recordType);
            && |out| == |ds| + (if matched then 0 else 1)
            && (forall j :: 0 <= j < |ds| ==>
                  out[j] == if Matches(ds[j], host, recordType) then Replacement(ds[j], host, recordType, value, ttl, priority)
                            else Kept(ds[j]))
            && (!matched ==> out[|ds|] == NewRecord(host, recordType, value, ttl, priority))
            && (exists j :: 0 <= j < |out| && out[j].name == VStr(host) && out[j].recordType == VStr(recordType)
                            && out[j].address == VStr(value) && out[j].ttl == VStr(IntToStr(ttl)))
  {
    UpdatedHostsAt(records, host, recordType, value, ttl, priority);
    AnyMatchDicts(records, host, recordType);
    var ds := Dicts(records);
    var out := UpdateRecordHosts(records, host, recordType, value, ttl, priority);
    if d :| d in ds && Matches(d, host, recordType) {
      var j :| 0 <= j < |ds| && ds[j] == d;
      assert out[j] == Replacement(ds[j], host, recordType, value, ttl, priority);
    } else {
      assert out[|ds|] == NewRecord(host, recordType, value, ttl, priority);
    }
  }

  // ---------------------------------------------------------------------------
  // delete_record
  // ---------------------------------------------------------------------------

  /** Whether `delete_record` drops a record: name and type match, and either
      no value was given or the Address equals it. */
  predicate Deleted(d: Dict, host: string, recordType: string, value: Option<string>) {
    Matches(d, host, recordType) && (value.None? || Get(d, "Address", VStr("")) == VStr(value.value))
  }

  /** The host list `delete_record` sends. */
  function DeleteRecordHosts(records: seq<Value>, host: string, recordType: string, value: Option<string>): seq<HostRecord> {
    if records == [] then []
    else
      var n := |records| - 1;
      var prev := DeleteRecordHosts(records[..n], host, recordType, value);
      if records[n].VMap? && !Deleted(records[n].fields, host, recordType, value) then prev + [Kept(records[n].fields)]
      else prev
  }

  /** `delete_record`: the host list it sends, or the error raised while
      reading the existing records. */
  method DeleteRecord(result: Dict, host: string, recordType: string, value: Option<string>)
    returns (r: Result<seq<HostRecord>, Error>)
    ensures r.Err? <==> ExistingHosts(result).Err?
    ensures r.Err? ==> r.error == ExistingHosts(result).error
    ensures r.Ok? ==> r.value == DeleteRecordHosts(ExistingHosts(result).value, host, recordType, value)
  {
    var existing := ExistingHosts(result);
    if existing.Err? {
      return Err(existing.error);
    }
    var hostRecords := existing.value;
    var newHosts: seq<HostRecord> := [];
    for i := 0 to |hostRecords|
      invariant newHosts == DeleteRecordHosts(hostRecords[..i], host, recordType, value)
    {
      PrefixOfPrefix(hostRecords, i + 1);
      var hostRecord := hostRecords[i];
      if !hostRecord.VMap? {
        continue;
      }
      var d := hostRecord.fields;
      var recordName := Get(d, "Name", VStr(""));
      var recordTypeExisting := Get(d, "Type", VStr(""));
      if recordName == VStr(host) && recordTypeExisting == VStr(recordType) {
        if value.None? || Get(d, "Address", VStr("")) == VStr(value.value) {
          continue;
        }
      }
      newHosts := newHosts + [HostRecord(recordName, recordTypeExisting, Get(d, "Address", VStr("")),
                                         Some(Get(d, "MXPref", VStr("10"))), Get(d, "TTL", VStr("1800")))];
    }
    assert hostRecords[..|hostRecords|] == hostRecords;
    r := Ok(newHosts);
  }

  /** The dict records `delete_record` keeps, in order. */
  function Survivors(ds: seq<Dict>, host: string, recordType: string, value: Option<string>): (r: seq<Dict>)
    ensures |r| <= |ds|
  {
    if ds == [] then []
    else
      var n := |ds| - 1;
      Survivors(ds[..n], host, recordType, value) + (if Deleted(ds[n], host, recordType, value) then [] else [ds[n]])
  }

  /** The survivors are exactly the records that do not meet the criteria. */
  lemma {:induction false} SurvivorsSpec(ds: seq<Dict>, host: string, recordType: string, value: Option<string>)
    ensures forall d :: d in ds ==> (d in Survivors(ds, host, recordType, value) <==> !Deleted(d, host, recordType, value))
    ensures forall d :: d in Survivors(ds, host, recordType, value) ==> d in ds
  {
    if ds != [] {
      var n := |ds| - 1;
      SurvivorsSpec(ds[..n], host, recordType, value);
      assert ds == ds[..n] + [ds[n]];
    }
  }

  /** Filtering a concatenation filters each part: the survivors keep their
      order and multiplicity. */
  lemma {:induction false} SurvivorsConcat(a: seq<Dict>, b: seq<Dict>, host: string, recordType: string, value: Option<string>)
    ensures Survivors(a + b, host, recordType, value)
            == Survivors(a, host, recordType, value) + Survivors(b, host, recordType, value)
  {
    if b == [] {
      assert a + b == a;
    } else {
      var n := |b| - 1;
      SurvivorsConcat(a, b[..n], host, recordType, value);
      assert (a + b)[..|a| + n] == a + b[..n];
      assert (a + b)[|a| + n] == b[n];
    }
  }

  lemma {:induction false} DeleteRecordHostsAt(records: seq<Value>, host: string, recordType: string, value: Option<string>)
    ensures var out := DeleteRecordHosts(records, host, recordType, value);
            var kept := Survivors(Dicts(records), host, recordType, value);
            |out| == |kept| && forall j :: 0 <= j < |out| ==> out[j] == Kept(kept[j])
  {
    if records != [] {
      var n := |records| - 1;
      DeleteRecordHostsAt(records[..n], host, recordType, value);
      var ds := Dicts(records);
      var ds0 := Dicts(records[..n]);
      if records[n].VMap? {
        assert ds[..|ds| - 1] == ds0;
      } else {
        assert ds == ds0;
      }
    }
  }

  /** `delete_record` re-emits, in their original order, exactly the dict
      records that do not meet the deletion criteria. */
  lemma DeleteRecordSpec(records: seq<Value>, host: string, recordType: string, value: Option<string>)
    ensures var out := DeleteRecordHosts(records, host, recordType, value);
            var kept := Survivors(Dicts(records), host, recordType, value);
            && |out| == |kept|
            && (forall j :: 0 <= j < |out| ==> out[j] == Kept(kept[j]))
            && (forall d :: d in Dicts(records) ==> (d in kept <==> !Deleted(d, host, recordType, value)))
            && (forall d :: d in kept ==> d in Dicts(records))
  {
    DeleteRecordHostsAt(records, host, recordType, value);
    SurvivorsSpec(Dicts(records), host, recordType, value);
  }

  /** When no dict record meets the criteria, `delete_record` re-emits every record. */
  lemma {:induction false} DeleteNothingMatched(records: seq<Value>, host: string, recordType: string, value: Option<string>)
    requires forall d :: d in Dicts(records) ==> !Deleted(d, host, recordType, value)
    ensures var out := DeleteRecordHosts(records, host, recordType, value);
            |out| == |Dicts(records)| && forall j :: 0 <= j < |out| ==> out[j] == Kept(Dicts(records)[j])
  {
    if records != [] {
      var n := |records| - 1;
      var ds := Dicts(records[..n]);
      var last := if records[n].VMap? then [records[n].fields] else [];
      assert Dicts(records) == ds + last;
      assert forall d :: d in ds ==> d in Dicts(records);
      DeleteNothingMatched(records[..n], host, recordType, value);
      var prev := DeleteRecordHosts(records[..n], host, recordType, value);
      var out := DeleteRecordHosts(records, host, recordType, value);
      if records[n].VMap? {
        assert records[n].fields in Dicts(records);
        assert out == prev + [Kept(records[n].fields)];
      } else {
        assert out == prev;
      }
      forall j | 0 <= j < |out|
        ensures out[j] == Kept(Dicts(records)[j])
      {
        if j < |prev| {
          assert out[j] == prev[j] && Dicts(records)[j] == ds[j];
        }
      }
    }
  }

  // ---------------------------------------------------------------------------
  // set_a_records
  // ---------------------------------------------------------------------------

  /** Whether a record is one of the A records `set_a_records` replaces. */
  predicate IsApexOrWwwA(d: Dict) {
    Get(d, "Name", VStr("")) in {VStr("@"), VStr("www")} && Get(d, "Type", VStr("")) == VStr("A")
  }

  function ARecord(name: string, ipAddress: string): HostRecord {
    HostRecord(VStr(name), VStr("A"), VStr(ipAddress), None, VStr("1800"))
  }

  /** The other records `set_a_records` keeps, re-emitted. */
  function OtherHosts(records: seq<Value>): seq<HostRecord> {
    if records == [] then []
    else
      var n := |records| - 1;
      var prev := OtherHosts(records[..n]);
      if records[n].VMap? && !IsApexOrWwwA(records[n].fields) then prev + [Kept(records[n].fields)] else prev
  }

  /** The host list `set_a_records` sends. */
  function SetARecordsHosts(records: seq<Value>, ipAddress: string): seq<HostRecord> {
    OtherHosts(records) + [ARecord("@", ipAddress), ARecord("www", ipAddress)]
  }

  /** `set_a_records`: the host list it sends, or the error raised while
      reading the existing records. */
  method SetARecords(result: Dict, ipAddress: string) returns (r: Result<seq<HostRecord>, Error>)
    ensures r.Err? <==> ExistingHosts(result).Err?
    ensures r.Err? ==> r.error == ExistingHosts(result).error
    ensures r.Ok? ==> r.value == SetARecordsHosts(ExistingHosts(result).value, ipAddress)
  {
    var existing := ExistingHosts(result);
    if existing.Err? {
      return Err(existing.error);
    }
    var hostRecords := existing.value;
    var newHosts: seq<HostRecord> := [];
    for i := 0 to |hostRecords|
      invariant newHosts == OtherHosts(hostRecords[..i])
    {
      PrefixOfPrefix(hostRecords, i + 1);
      var hostRecord := hostRecords[i];
      if !hostRecord.VMap? {
        continue;
      }
      var d := hostRecord.fields;
      var recordName := Get(d, "Name", VStr(""));
      var recordType := Get(d, "Type", VStr(""));
      if recordName in [VStr("@"), VStr("www")] && recordType == VStr("A") {
        continue;
      }
      newHosts := newHosts + [HostRecord(recordName, recordType, Get(d, "Address", VStr("")),
                                         Some(Get(d, "MXPref", VStr("10"))), Get(d, "TTL", VStr("1800")))];
    }
    assert hostRecords[..|hostRecords|] == hostRecords;
    newHosts := newHosts + [HostRecord(VStr("@"), VStr("A"), VStr(ipAddress), None, VStr("1800"))];
    newHosts := newHosts + [HostRecord(VStr("www"), VStr("A"), VStr(ipAddress), None, VStr("1800"))];
    r := Ok(newHosts);
  }

  lemma {:induction false} OtherHostsSpec(records: seq<Value>)
    ensures var out := OtherHosts(records);
            && |out| <= |Dicts(records)|
            && (forall j :: 0 <= j < |out| ==>
                  out[j].mxPref.Some? && !(out[j].name in {VStr("@"), VStr("www")} && out[j].recordType == VStr("A")))
            && (forall d :: d in Dicts(records) && !IsApexOrWwwA(d) ==> Kept(d) in out)
            && (forall x :: x in out ==> exists d :: d in Dicts(records) && !IsApexOrWwwA(d) && x == Kept(d))
  {
    if records != [] {
      var n := |records| - 1;
      OtherHostsSpec(records[..n]);
      assert forall d :: d in Dicts(records) ==> d in Dicts(records[..n]) || (records[n].VMap? && d == records[n].fields);
      assert forall d :: d in Dicts(records[..n]) ==> d in Dicts(records);
    }
  }

  /** The kept records of two runs of records are those of the first run
      followed by those of the second: the filter keeps their order and
      multiplicity. */
  lemma {:induction false} OtherHostsConcat(a: seq<Value>, b: seq<Value>)
    ensures OtherHosts(a + b) == OtherHosts(a) + OtherHosts(b)
  {
    if b == [] {
      assert a + b == a;
    } else {
      var n := |b| - 1;
      OtherHostsConcat(a, b[..n]);
      assert (a + b)[..|a| + n] == a + b[..n];
      assert (a + b)[|a| + n] == b[n];
    }
  }

  /** `set_a_records` keeps every record other than the A records of "@" and
      "www", and ends with exactly two A records, "@" then "www", pointing at
      the given address with TTL "1800"; no other A record for "@" or "www"
      remains. */
  lemma SetARecordsSpec(records: seq<Value>, ipAddress: string)
    ensures var out := SetARecordsHosts(records, ipAddress);
            && |out| >= 2
            && out[|out| - 2] == HostRecord(VStr("@"), VStr("A"), VStr(ipAddress), None, VStr("1800"))
            && out[|out| - 1] == HostRecord(VStr("www"), VStr("A"), VStr(ipAddress), None, VStr("1800"))
            && (forall j :: 0 <= j < |out| && out[j].name in {VStr("@"), VStr("www")} && out[j].recordType == VStr("A") ==>
                  j >= |out| - 2)
            && (forall d :: d in Dicts(records) && !IsApexOrWwwA(d) ==> Kept(d) in out)
    ensures forall a, b :: records == a + b ==>
              SetARecordsHosts(records, ipAddress)[..|OtherHosts(records)|] == OtherHosts(a) + OtherHosts(b)
  {
    OtherHostsSpec(records);
    forall a, b | records == a + b
      ensures SetARecordsHosts(records, ipAddress)[..|OtherHosts(records)|] == OtherHosts(a) + OtherHosts(b)
    {
      OtherHostsConcat(a, b);
    }
  }

  /** Running `set_a_records` again on the list it sent sends the same list. */
  lemma SetARecordsIdempotent(records: seq<Value>, ipAddress: string)
    ensures SetARecordsHosts(RecordValues(SetARecordsHosts(records, ipAddress)), ipAddress)
            == SetARecordsHosts(records, ipAddress)
  {
    OtherHostsAgain(records);
    var others := OtherHosts(records);
    var added := [ARecord("@", ipAddress), ARecord("www", ipAddress)];
    var vals := RecordValues(others + added);
    RecordValuesConcat(others, added);
    assert RecordValues(added) == [VMap(RecordDict(added[0])), VMap(RecordDict(added[1]))];
    OtherHostsDropsA(RecordValues(others), ipAddress);
    assert OtherHosts(vals) == others;
  }

  lemma RecordValuesConcat(a: seq<HostRecord>, b: seq<HostRecord>)
    ensures RecordValues(a + b) == RecordValues(a) + RecordValues(b)
  {
    var ab := a + b;
    var l := RecordValues(ab);
    var la := RecordValues(a);
    var lb := RecordValues(b);
    forall j | 0 <= j < |a|
      ensures l[j] == la[j]
    {
      assert ab[j] == a[j];
    }
    forall j | 0 <= j < |b|
      ensures l[|a| + j] == lb[j]
    {
      assert ab[|a| + j] == b[j];
    }
    assert l == la + lb;
  }

  /** Re-emitting the kept records again gives them back. */
  lemma {:induction false} OtherHostsAgain(records: seq<Value>)
    ensures OtherHosts(RecordValues(OtherHosts(records))) == OtherHosts(records)
  {
    if records != [] {
      var n := |records| - 1;
      OtherHostsAgain(records[..n]);
      var prev := OtherHosts(records[..n]);
      if records[n].VMap? && !IsApexOrWwwA(records[n].fields) {
        var k := Kept(records[n].fields);
        var out := prev + [k];
        var vals := RecordValues(out);
        assert vals[..|vals| - 1] == RecordValues(prev);
        KeptStable(records[n].fields);
        assert RecordDict(k)["Name"] == k.name && RecordDict(k)["Type"] == k.recordType;
      }
    }
  }

  /** The two new A records are dropped again by a second run. */
  lemma OtherHostsDropsA(vals: seq<Value>, ipAddress: string)
    ensures OtherHosts(vals + [VMap(RecordDict(ARecord("@", ipAddress))), VMap(RecordDict(ARecord("www", ipAddress)))])
            == OtherHosts(vals)
  {
    var a := VMap(RecordDict(ARecord("@", ipAddress)));
    var w := VMap(RecordDict(ARecord("www", ipAddress)));
    var s := vals + [a, w];
    assert s[..|s| - 1] == vals + [a];
    assert (vals + [a])[..|vals|] == vals;
    assert IsApexOrWwwA(a.fields) && IsApexOrWwwA(w.fields);
  }
}
