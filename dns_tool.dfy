/** The record handling of the command-line example examples/dns_tool.py: the
    confirmation decision, the record `add_record` appends, the keep/delete
    partition of `delete_record` and the normalisation of `import_records`.
    Console input, files and JSON loading are inputs; the record list the tool
    reads back is taken as given. */
module DnsTool {
  import opened Wrappers
  import opened Text
  import opened Values
  import opened Seqs

  // ---------------------------------------------------------------------------
  // confirm_action
  // ---------------------------------------------------------------------------

  /** The decision `confirm_action` takes on the answer typed: an empty (or
      blank) answer takes the default, any other answer confirms exactly when
      it starts with "y" after stripping and lower-casing. */
  function ConfirmAction(response: string, default: bool): (r: bool)
    ensures AllSpace(response) ==> r == default
    ensures !AllSpace(response) ==> (r <==> Strip(response)[0] in {'y', 'Y'})
  {
    var answer := Lower(Strip(response));
    assert |answer| == |Strip(response)|;
    assert answer != "" ==> answer[0] == LowerChar(Strip(response)[0]);
    assert answer != "" ==> (StartsWith(answer, "y") <==> answer[0] == 'y');
    if answer == "" then default else StartsWith(answer, "y")
  }

  // ---------------------------------------------------------------------------
  // list_records
  // ---------------------------------------------------------------------------

  /** `list_records` returns the `get_hosts` result unchanged, and an empty
      list when the API reports an error; any other failure propagates. */
  function ListRecords(hosts: Result<Value, Error>): (r: Result<Value, Error>)
    ensures hosts.Ok? ==> r == hosts
    ensures hosts.Err? && hosts.error.ApiError? ==> r == Ok(VList([]))
    ensures hosts.Err? && !hosts.error.ApiError? ==> r == hosts
  {
    match hosts
    case Ok(records) => Ok(records)
    case Err(ApiError(_, _)) => Ok(VList([]))
    case Err(e) => Err(e)
  }

  // ---------------------------------------------------------------------------
  // add_record
  // ---------------------------------------------------------------------------

  /** The record `add_record` builds from the command-line values: Name, Type,
      Address and TTL, and MXPref when the type is MX in any letter case. A
      missing value is a `KeyError` (name, type, value, ttl, then priority),
      and a type that is not a text fails at `.upper()`. */
  function NewRecord(recordData: Dict): (r: Result<Dict, Error>)
    ensures r.Ok? <==> && "name" in recordData && "type" in recordData && "value" in recordData && "ttl" in recordData
                       && recordData["type"].VStr?
                       && (Upper(recordData["type"].s) == "MX" ==> "priority" in recordData)
    ensures r.Ok? ==>
              && r.value.Keys == {"Name", "Type", "Address", "TTL"} + (if Upper(recordData["type"].s) == "MX" then {"MXPref"} else {})
              && r.value["Name"] == recordData["name"] && r.value["Type"] == recordData["type"]
              && r.value["Address"] == recordData["value"] && r.value["TTL"] == recordData["ttl"]
              && (Upper(recordData["type"].s) == "MX" ==> r.value["MXPref"] == recordData["priority"])
    ensures "name" !in recordData ==> r == Err(KeyError("name"))
  {
    if "name" !in recordData then Err(KeyError("name"))
    else if "type" !in recordData then Err(KeyError("type"))
    else if "value" !in recordData then Err(KeyError("value"))
    else if "ttl" !in recordData then Err(KeyError("ttl"))
    else
      var record := map["Name" := recordData["name"], "Type" := recordData["type"],
                        "Address" := recordData["value"], "TTL" := recordData["ttl"]];
      if !recordData["type"].VStr? then Err(AttributeError)
      else if Upper(recordData["type"].s) == "MX" then
        if "priority" in recordData then Ok(record["MXPref" := recordData["priority"]]) else Err(KeyError("priority"))
      else Ok(record)
  }

  /** The list `add_record` sends: the current records followed by the new one. */
  function AddRecord(current: seq<Value>, recordData: Dict): (r: Result<seq<Value>, Error>)
    ensures r.Ok? <==> NewRecord(recordData).Ok?
    ensures r.Ok? ==> |r.value| == |current| + 1 && r.value[..|current|] == current
                      && r.value[|current|] == VMap(NewRecord(recordData).value)
  {
    match NewRecord(recordData)
    case Err(e) => Err(e)
    case Ok(record) => Ok(current + [VMap(record)])
  }

  /** `add_record` recognises MX in any letter case. */
  lemma AddRecordLowerCaseMx(name: Value, address: Value, ttl: Value, priority: Value)
    ensures var data := map["name" := name, "type" := VStr("mx"), "value" := address, "ttl" := ttl, "priority" := priority];
            NewRecord(data).Ok? && "MXPref" in NewRecord(data).value && NewRecord(data).value["MXPref"] == priority
  {
    var data := map["name" := name, "type" := VStr("mx"), "value" := address, "ttl" := ttl, "priority" := priority];
    assert Upper("mx") == "MX";
    assert data["type"] == VStr("mx");
  }

  // ---------------------------------------------------------------------------
  // delete_record
  // ---------------------------------------------------------------------------

  /** Python's `str(v)`; `strOther` renders floats, lists and dicts. */
  function Stringified(v: Value, strOther: Value -> string): string {
    if IsScalar(v) then Str(v) else strOther(v)
  }

  /** `{k: str(v) for k, v in record.items()}`. */
  function StrFields(fields: Dict, strOther: Value -> string): Dict {
    map k | k in fields :: VStr(Stringified(fields[k], strOther))
  }

  /** A kept record keeps its keys, each value made a text. */
  lemma StrFieldsSpec(fields: Dict, strOther: Value -> string, k: string)
    ensures k in StrFields(fields, strOther) <==> k in fields
    ensures k in fields ==> StrFields(fields, strOther)[k] == VStr(Stringified(fields[k], strOther))
    ensures k in fields && IsScalar(fields[k]) ==> StrFields(fields, strOther)[k] == VStr(Str(fields[k]))
  {
  }

  /** The record `delete_record` is asked to remove: its name, its type and,
      when truthy, its address. */
  datatype Target = Target(name: Value, recordType: Value, value: Value)

  /** The comparisons `delete_record` makes, in order. */
  function TargetChecks(target: Target): seq<(string, Value)> {
    [("Name", target.name), ("Type", target.recordType)]
    + (if Truthy(target.value) then [("Address", target.value)] else [])
  }

  /** Whether `delete_record` deletes a record: Name and Type match and, when
      a value is given, Address equals it. Fields are read only as far as the
      `and` chain gets; indexing a non-dict is a `TypeError`. */
  function Deletes(record: Value, target: Target): (r: Result<bool, Error>) {
    if !record.VMap? then Err(TypeError)
    else MatchAll(record.fields, TargetChecks(target))
  }

  /** The `and` chain of comparisons `fields[key] == v`, left to right: the
      first `False` ends it, and a missing key raises `KeyError`. */
  function MatchAll(fields: Dict, checks: seq<(string, Value)>): Result<bool, Error> {
    if checks == [] then Ok(true)
    else
      match FieldMatches(fields, checks[0].0, checks[0].1)
      case Err(e) => Err(e)
      case Ok(false) => Ok(false)
      case Ok(true) => MatchAll(fields, checks[1..])
  }

  /** The chain is true exactly when every key is present with its value. */
  lemma {:induction false} MatchAllIff(fields: Dict, checks: seq<(string, Value)>)
    ensures MatchAll(fields, checks) == Ok(true) <==> forall c :: c in checks ==> c.0 in fields && fields[c.0] == c.1
  {
    if checks != [] {
      MatchAllIff(fields, checks[1..]);
      assert forall c :: c in checks ==> c == checks[0] || c in checks[1..];
    }
  }

  /** `record[key] == v`, a `KeyError` when the key is missing. */
  function FieldMatches(fields: Dict, key: string, v: Value): (r: Result<bool, Error>)
    ensures r == Ok(true) <==> key in fields && fields[key] == v
    ensures r.Err? <==> key !in fields
  {
    if key !in fields then Err(KeyError(key)) else Ok(fields[key] == v)
  }

  /** A record is deleted exactly when Name and Type match and, if a value is
      given, Address matches too. */
  lemma DeletesIff(record: Value, target: Target)
    ensures Deletes(record, target) == Ok(true) <==>
              && record.VMap? && "Name" in record.fields && record.fields["Name"] == target.name
              && "Type" in record.fields && record.fields["Type"] == target.recordType
              && (Truthy(target.value) ==> "Address" in record.fields && record.fields["Address"] == target.value)
  {
    if record.VMap? {
      var checks := TargetChecks(target);
      MatchAllIff(record.fields, checks);
      assert ("Name", target.name) in checks && ("Type", target.recordType) in checks;
      assert Truthy(target.value) ==> ("Address", target.value) in checks;
    }
  }

  /** The two lists `delete_record` builds: the kept records (every value made
      a text) and the records to delete, each in input order. */
  datatype Partition = Partition(keep: seq<Value>, delete: seq<Value>)

  function Partitioned(records: seq<Value>, target: Target,
                       strOther: Value -> string): Result<Partition, Error>
  {
    if records == [] then Ok(Partition([], []))
    else
      var n := |records| - 1;
      match Partitioned(records[..n], target, strOther)
      case Err(e) => Err(e)
      case Ok(p) => PartitionStep(p, records[n], target, strOther)
  }

  /** One record's effect on the two lists. */
  function PartitionStep(p: Partition, record: Value, target: Target,
                         strOther: Value -> string): Result<Partition, Error>
  {
    match Deletes(record, target)
    case Err(e) => Err(e)
    case Ok(true) => Ok(Partition(p.keep, p.delete + [record]))
    case Ok(false) => Ok(Partition(p.keep + [VMap(StrFields(record.fields, strOther))], p.delete))
  }

  /** The body of the partition loop. */
  method PartitionOne(keep: seq<Value>, delete: seq<Value>, record: Value, target: Target, strOther: Value -> string) returns (r: Result<Partition, Error>)
    ensures r == PartitionStep(Partition(keep, delete), record, target, strOther)
  {
    var deleted := Deletes(record, target);
    if deleted.Err? {
      return Err(deleted.error);
    }
    if deleted.value {
      r := Ok(Partition(keep, delete + [record]));
    } else {
      r := Ok(Partition(keep + [VMap(StrFields(record.fields, strOther))], delete));
    }
  }

  /** Every record lands in exactly one of the two lists: the deleted ones as
      they are, the others with their values made texts. */
  lemma {:induction false} PartitionSpec(records: seq<Value>, target: Target,
                                         strOther: Value -> string)
    requires Partitioned(records, target, strOther).Ok?
    ensures var p := Partitioned(records, target, strOther).value;
            && |p.keep| + |p.delete| == |records|
            && (forall x :: x in p.delete ==> x in records && Deletes(x, target) == Ok(true))
            && (forall x :: x in records ==> Deletes(x, target).Ok? && x.VMap?)
            && (forall x :: x in records && Deletes(x, target) == Ok(true) ==> x in p.delete)
            && (forall x :: x in records && Deletes(x, target) == Ok(false) ==>
                  VMap(StrFields(x.fields, strOther)) in p.keep)
  {
    if records != [] {
      var n := |records| - 1;
      var prev := records[..n];
      var x := records[n];
      assert Partitioned(prev, target, strOther).Ok?;
      PartitionSpec(prev, target, strOther);
      var p0 := Partitioned(prev, target, strOther).value;
      var p := Partitioned(records, target, strOther).value;
      assert Ok(p) == PartitionStep(p0, x, target, strOther);
      assert records == prev + [x];
      forall y | y in p.delete
        ensures y in records && Deletes(y, target) == Ok(true)
      {
        if y !in p0.delete {
          assert y == x;
        }
      }
      forall y | y in records
        ensures Deletes(y, target).Ok? && y.VMap?
        ensures Deletes(y, target) == Ok(true) ==> y in p.delete
        ensures Deletes(y, target) == Ok(false) ==> VMap(StrFields(y.fields, strOther)) in p.keep
      {
        if y != x {
          assert y in prev;
        }
      }
    }
  }

  /** Partitioning two runs of records succeeds exactly when both do, and then
      each list is the first run's followed by the second's: both lists keep
      the input order and every record once. */
  lemma {:induction false} PartitionConcat(a: seq<Value>, b: seq<Value>, target: Target,
                                           strOther: Value -> string)
    ensures Partitioned(a + b, target, strOther).Ok? <==>
              Partitioned(a, target, strOther).Ok? && Partitioned(b, target, strOther).Ok?
    ensures Partitioned(a + b, target, strOther).Ok? ==>
              var pa := Partitioned(a, target, strOther).value;
              var pb := Partitioned(b, target, strOther).value;
              Partitioned(a + b, target, strOther).value == Partition(pa.keep + pb.keep, pa.delete + pb.delete)
  {
    if b == [] {
      assert a + b == a;
    } else {
      var n := |b| - 1;
      var ab := a + b;
      var bn := b[..n];
      PartitionConcat(a, bn, target, strOther);
      assert ab[..|ab| - 1] == a + bn && ab[|ab| - 1] == b[n];
      if Partitioned(a, target, strOther).Err? {
        PartitionFailurePersists(ab, |a|, target, strOther);
        assert ab[..|a|] == a;
      } else if Partitioned(bn, target, strOther).Ok? {
        var pa := Partitioned(a, target, strOther).value;
        var pb := Partitioned(bn, target, strOther).value;
        assert Partitioned(a + bn, target, strOther) == Ok(Partition(pa.keep + pb.keep, pa.delete + pb.delete));
        StepAfter(pa, pb, b[n], target, strOther);
      }
    }
  }

  /** A step after a first run's lists extends the second run's lists alone. */
  lemma StepAfter(p: Partition, q: Partition, record: Value, target: Target, strOther: Value -> string)
    ensures PartitionStep(Partition(p.keep + q.keep, p.delete + q.delete), record, target, strOther).Ok?
            == PartitionStep(q, record, target, strOther).Ok?
    ensures PartitionStep(q, record, target, strOther).Ok? ==>
              var q' := PartitionStep(q, record, target, strOther).value;
              PartitionStep(Partition(p.keep + q.keep, p.delete + q.delete), record, target, strOther).value
                == Partition(p.keep + q'.keep, p.delete + q'.delete)
  {
    assert p.delete + q.delete + [record] == p.delete + (q.delete + [record]);
    if Deletes(record, target) == Ok(false) {
      var k := [VMap(StrFields(record.fields, strOther))];
      assert p.keep + q.keep + k == p.keep + (q.keep + k);
    }
  }

  lemma {:induction false} PartitionFailurePersists(records: seq<Value>, n: nat, target: Target, strOther: Value -> string)
    requires n <= |records| && Partitioned(records[..n], target, strOther).Err?
    ensures Partitioned(records, target, strOther) == Partitioned(records[..n], target, strOther)
    decreases |records| - n
  {
    if n < |records| {
      assert records[..n + 1][..n] == records[..n];
      PartitionFailurePersists(records, n + 1, target, strOther);
    } else {
      assert records[..n] == records;
    }
  }

  /** Extending the processed prefix by one record applies one `PartitionStep`. */
  lemma PartitionedPrefixStep(records: seq<Value>, i: nat, p: Partition, target: Target, strOther: Value -> string)
    requires i < |records| && Partitioned(records[..i], target, strOther) == Ok(p)
    ensures Partitioned(records[..i + 1], target, strOther)
            == PartitionStep(p, records[i], target, strOther)
  {
    PrefixOfPrefix(records, i + 1);
    assert records[..i + 1][i] == records[i];
  }

  /** The partition loop of `delete_record`. */
  method PartitionRecords(records: seq<Value>, target: Target, strOther: Value -> string)
    returns (r: Result<Partition, Error>)
    ensures r == Partitioned(records, target, strOther)
  {
    var partition := Partition([], []);
    for i := 0 to |records|
      invariant Partitioned(records[..i], target, strOther) == Ok(partition)
    {
      var next := PartitionOne(partition.keep, partition.delete, records[i], target, strOther);
      PartitionedPrefixStep(records, i, partition, target, strOther);
      if next.Err? {
        PartitionFailurePersists(records, i + 1, target, strOther);
        return next;
      }
      partition := next.value;
    }
    assert records[..|records|] == records;
    r := Ok(partition);
  }

  /** The list `delete_record` hands to `set_hosts`: none when nothing matched
      or the user declined, otherwise the kept records. */
  method DeleteRecord(records: seq<Value>, target: Target, strOther: Value -> string,
                      confirmed: bool) returns (r: Result<Option<seq<Value>>, Error>)
    ensures var p := Partitioned(records, target, strOther);
            && (r.Err? <==> p.Err?)
            && (r.Err? ==> r.error == p.error)
            && (r.Ok? ==> (r.value.Some? <==> p.value.delete != [] && confirmed))
            && (r.Ok? && r.value.Some? ==> r.value.value == p.value.keep)
  {
    var partition := PartitionRecords(records, target, strOther);
    if partition.Err? {
      return Err(partition.error);
    }
    if partition.value.delete == [] || !confirmed {
      return Ok(None);
    }
    r := Ok(Some(partition.value.keep));
  }

  // ---------------------------------------------------------------------------
  // import_records
  // ---------------------------------------------------------------------------

  const NotAListMessage := "JSON file must contain a list of DNS records"

  /** One imported record: Name, Type, Address and TTL with defaults "@", "A",
      "" and "1800", and MXPref (default "10") only when the type is exactly "MX". */
  function ImportedRecord(record: Dict): (r: Dict)
    ensures Get(record, "Type", VStr("A")) == VStr("MX") ==> r.Keys == {"Name", "Type", "Address", "TTL", "MXPref"}
    ensures Get(record, "Type", VStr("A")) != VStr("MX") ==> r.Keys == {"Name", "Type", "Address", "TTL"}
    ensures r["Name"] == Get(record, "Name", VStr("@")) && r["Type"] == Get(record, "Type", VStr("A"))
    ensures r["Address"] == Get(record, "Address", VStr("")) && r["TTL"] == Get(record, "TTL", VStr("1800"))
    ensures "MXPref" in r ==> r["MXPref"] == Get(record, "MXPref", VStr("10"))
  {
    var hostRecord := map["Name" := Get(record, "Name", VStr("@")), "Type" := Get(record, "Type", VStr("A")),
                          "Address" := Get(record, "Address", VStr("")), "TTL" := Get(record, "TTL", VStr("1800"))];
    if hostRecord["Type"] == VStr("MX") then hostRecord["MXPref" := Get(record, "MXPref", VStr("10"))] else hostRecord
  }

  /** `import_records` is exact about MX: a record typed "mx" gets no MXPref,
      where `add_record` would add one. */
  lemma ImportLowerCaseMxHasNoPref(name: Value)
    ensures "MXPref" !in ImportedRecord(map["Name" := name, "Type" := VStr("mx")])
  {
    assert VStr("mx") != VStr("MX");
  }

  /** The records `import_records` sends, or the error of its first non-dict entry. */
  function Imported(records: seq<Value>): Result<seq<Value>, Error> {
    if records == [] then Ok([])
    else
      var n := |records| - 1;
      match Imported(records[..n])
      case Err(e) => Err(e)
      case Ok(hosts) =>
        if records[n].VMap? then Ok(hosts + [VMap(ImportedRecord(records[n].fields))]) else Err(AttributeError)
  }

  /** On success, one record per input record, at the same position. */
  lemma {:induction false} ImportedSpec(records: seq<Value>)
    ensures Imported(records).Ok? <==> forall k :: 0 <= k < |records| ==> records[k].VMap?
    ensures Imported(records).Ok? ==>
              && |Imported(records).value| == |records|
              && forall k :: 0 <= k < |records| ==> Imported(records).value[k] == VMap(ImportedRecord(records[k].fields))
  {
    if records != [] {
      var n := |records| - 1;
      ImportedSpec(records[..n]);
      assert forall k :: 0 <= k < n ==> records[..n][k] == records[k];
    }
  }

  lemma {:induction false} ImportedFailurePersists(records: seq<Value>, n: nat)
    requires n <= |records| && Imported(records[..n]).Err?
    ensures Imported(records) == Imported(records[..n])
    decreases |records| - n
  {
    if n < |records| {
      assert records[..n + 1][..n] == records[..n];
      ImportedFailurePersists(records, n + 1);
    } else {
      assert records[..n] == records;
    }
  }

  /** The normalisation loop of `import_records`, given the loaded JSON value. */
  method ImportRecords(loaded: Value) returns (r: Result<seq<Value>, Error>)
    ensures !loaded.VList? ==> r == Err(ValueError(NotAListMessage))
    ensures loaded.VList? ==> r == Imported(loaded.items)
  {
    if !loaded.VList? {
      return Err(ValueError(NotAListMessage));
    }
    var records := loaded.items;
    var hostRecords: seq<Value> := [];
    for i := 0 to |records|
      invariant Imported(records[..i]) == Ok(hostRecords)
    {
      PrefixOfPrefix(records, i + 1);
      var record := records[i];
      if !record.VMap? {
        ImportedFailurePersists(records, i + 1);
        return Err(AttributeError);
      }
      var hostRecord := ImportedRecord(record.fields);
      hostRecords := hostRecords + [VMap(hostRecord)];
    }
    assert records[..|records|] == records;
    r := Ok(hostRecords);
  }
}
