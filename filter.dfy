/**
 * Record selection (`record_filter` of src/record.rs) and the filtering pass
 * of `get_records_for_zone`, which keeps the provider's records that need
 * their address rewritten.
 */
module Filter {
  import opened Config
  import opened Record

  /**
   * Which of the early returns of `record_filter` a record leaves by: the
   * first failing check, or `Stale` when all four pass.
   */
  datatype Verdict = WrongKind | UnknownZone | UnlistedName | UpToDate | Stale

  /**
   * The checks of `record_filter`, in the order the code makes them. The zone
   * is looked up under the record's zone identifier as a key of
   * `records_to_update`, that is, among the labels, not among the inner
   * `zone_id` fields.
   */
  function Classify(config: Config, record: Record, newIp: string): (v: Verdict)
    ensures v == WrongKind <==> record.kind != "A"
    ensures v == UnknownZone <==> record.kind == "A" && record.zoneId !in config.recordsToUpdate
    ensures v == UnlistedName <==>
      && record.kind == "A" && record.zoneId in config.recordsToUpdate
      && record.name !in config.recordsToUpdate[record.zoneId].records
    ensures v == UpToDate <==> Managed(config, record) && record.content == newIp
    ensures v == Stale <==> Managed(config, record) && record.content != newIp
  {
    if record.kind != "A" then WrongKind
    else if record.zoneId !in config.recordsToUpdate then UnknownZone
    else if record.name !in config.recordsToUpdate[record.zoneId].records then UnlistedName
    else if record.content == newIp then UpToDate
    else Stale
  }

  /** The configuration manages this record: an "A" record listed under its zone's key. */
  ghost predicate Managed(config: Config, record: Record)
  {
    && record.kind == "A"
    && record.zoneId in config.recordsToUpdate
    && record.name in config.recordsToUpdate[record.zoneId].records
  }

  /** `record_filter`'s result: the record is managed and its address is out of date. */
  function RecordFilter(config: Config, record: Record, newIp: string): (selected: bool)
    ensures selected <==> Managed(config, record) && record.content != newIp
  {
    Classify(config, record, newIp) == Stale
  }

  /**
   * Whether `record_filter` prints "Record <name> is up to date": the record
   * is managed and already holds the new address.
   */
  function LogsUpToDate(config: Config, record: Record, newIp: string): (logged: bool)
    ensures logged <==> Managed(config, record) && record.content == newIp
    ensures logged ==> !RecordFilter(config, record, newIp)
  {
    Classify(config, record, newIp) == UpToDate
  }

  /** A record that is not an "A" record is dropped whatever the configuration and address. */
  lemma NonARecordDropped(record: Record)
    requires record.kind != "A"
    ensures forall config, newIp :: !RecordFilter(config, record, newIp) && !LogsUpToDate(config, record, newIp)
  {
  }

  /** A record whose zone identifier is not a key of the configuration is dropped silently. */
  lemma UnknownZoneDropped(config: Config, record: Record)
    requires record.zoneId !in config.recordsToUpdate
    ensures forall newIp :: !RecordFilter(config, record, newIp) && !LogsUpToDate(config, record, newIp)
  {
  }

  /** A record whose zone is configured but whose name is not listed there is dropped silently. */
  lemma UnlistedNameDropped(config: Config, record: Record)
    requires record.zoneId in config.recordsToUpdate
    requires record.name !in config.recordsToUpdate[record.zoneId].records
    ensures forall newIp :: !RecordFilter(config, record, newIp) && !LogsUpToDate(config, record, newIp)
  {
  }

  /**
   * A record already holding the new address is dropped; the "up to date"
   * line is printed exactly when the three earlier checks passed.
   */
  lemma UpToDateDropped(config: Config, record: Record, newIp: string)
    requires record.content == newIp
    ensures !RecordFilter(config, record, newIp)
    ensures LogsUpToDate(config, record, newIp) <==> Managed(config, record)
  {
  }

  /** Every record ends in exactly one of three ways: ignored, reported up to date, or selected. */
  lemma ExactlyOneOutcome(config: Config, record: Record, newIp: string)
    ensures !Managed(config, record) <==> !RecordFilter(config, record, newIp) && !LogsUpToDate(config, record, newIp)
    ensures !(RecordFilter(config, record, newIp) && LogsUpToDate(config, record, newIp))
  {
  }

  /** Selection does not read the API key. */
  lemma SelectionIgnoresApiKey(config: Config, key: string, record: Record, newIp: string)
    ensures Classify(config.(cfApiKey := key), record, newIp) == Classify(config, record, newIp)
  {
  }

  /**
   * A patched record is never selected again with the same address; if the
   * configuration manages it, it is then reported up to date, and the checks
   * before the address comparison decide exactly as before.
   */
  lemma PatchedNotSelected(config: Config, record: Record, ip: string)
    ensures !RecordFilter(config, Patched(record, ip), ip)
    ensures LogsUpToDate(config, Patched(record, ip), ip) <==> Managed(config, record)
    ensures Classify(config, Patched(record, ip), ip)
         == if Classify(config, record, ip) == Stale then UpToDate else Classify(config, record, ip)
  {
  }

  // ---------------------------------------------------------------------
  // The filtering pass over one zone's listing
  // ---------------------------------------------------------------------

  /** The records of a listing that `record_filter` keeps, in listing order. */
  function Filtered(config: Config, records: seq<Record>, newIp: string): (kept: seq<Record>)
    ensures |kept| <= |records|
    ensures forall r :: r in kept ==> r in records && RecordFilter(config, r, newIp)
    ensures forall r :: r in records && RecordFilter(config, r, newIp) ==> r in kept
  {
    if records == [] then []
    else
      var rest := Filtered(config, records[1..], newIp);
      if RecordFilter(config, records[0], newIp) then [records[0]] + rest else rest
  }

  /** The names printed as "up to date" while a listing is filtered, in listing order. */
  function UpToDateNames(config: Config, records: seq<Record>, newIp: string): (names: seq<string>)
    ensures |names| + |Filtered(config, records, newIp)| <= |records|
    ensures forall r :: r in records && LogsUpToDate(config, r, newIp) ==> r.name in names
  {
    if records == [] then []
    else
      var rest := UpToDateNames(config, records[1..], newIp);
      if LogsUpToDate(config, records[0], newIp) then [records[0].name] + rest else rest
  }

  /**
   * The filter keeps every copy of each passing record and no copy of any
   * other: exactly the passing records of the listing.
   */
  lemma {:induction false} FilteredKeepsEveryCopy(config: Config, records: seq<Record>, newIp: string)
    ensures forall r :: multiset(Filtered(config, records, newIp))[r]
                     == if RecordFilter(config, r, newIp) then multiset(records)[r] else 0
    decreases |records|
  {
    if records != [] {
      FilteredKeepsEveryCopy(config, records[1..], newIp);
      assert records == [records[0]] + records[1..];
    }
  }

  /** Every printed name is the name of a listed record that was reported up to date. */
  lemma {:induction false} UpToDateNamesAreLogged(config: Config, records: seq<Record>, newIp: string, n: string)
    requires n in UpToDateNames(config, records, newIp)
    ensures exists r :: r in records && LogsUpToDate(config, r, newIp) && r.name == n
    decreases |records|
  {
    var rest := UpToDateNames(config, records[1..], newIp);
    if LogsUpToDate(config, records[0], newIp) && n == records[0].name {
      assert records[0] in records;
    } else {
      assert n in rest;
      UpToDateNamesAreLogged(config, records[1..], newIp, n);
      var r :| r in records[1..] && LogsUpToDate(config, r, newIp) && r.name == n;
      assert r in records;
    }
  }

  /** Filtering distributes over concatenation of listings. */
  lemma {:induction false} FilteredAppend(config: Config, a: seq<Record>, b: seq<Record>, newIp: string)
    ensures Filtered(config, a + b, newIp) == Filtered(config, a, newIp) + Filtered(config, b, newIp)
    ensures UpToDateNames(config, a + b, newIp) == UpToDateNames(config, a, newIp) + UpToDateNames(config, b, newIp)
    decreases |a|
  {
    if a != [] {
      assert (a + b)[1..] == a[1..] + b;
      FilteredAppend(config, a[1..], b, newIp);
    } else {
      assert a + b == b;
    }
  }

  /** A one-record listing keeps the record when it passes and logs it when it is up to date. */
  lemma FilteredOne(config: Config, record: Record, newIp: string)
    ensures Filtered(config, [record], newIp) == if RecordFilter(config, record, newIp) then [record] else []
    ensures UpToDateNames(config, [record], newIp) == if LogsUpToDate(config, record, newIp) then [record.name] else []
  {
    assert [record][1..] == [];
  }

  /**
   * The filtering pass of `get_records_for_zone`: start from an empty vector,
   * walk the provider's result and push every record `record_filter` keeps.
   * The second result is the sequence of names printed as "up to date"
   * during the walk.
   */
  method SelectRecords(config: Config, result: seq<Record>, newIp: string)
    returns (filtered: seq<Record>, upToDate: seq<string>)
    ensures filtered == Filtered(config, result, newIp)
    ensures upToDate == UpToDateNames(config, result, newIp)
  {
    filtered, upToDate := [], [];
    for i := 0 to |result|
      invariant filtered == Filtered(config, result[..i], newIp)
      invariant upToDate == UpToDateNames(config, result[..i], newIp)
    {
      var item := result[i];
      var verdict := Classify(config, item, newIp);
      if verdict == UpToDate {
        upToDate := upToDate + [item.name];
      }
      if verdict == Stale {
        filtered := filtered + [item];
      }
      assert result[..i + 1] == result[..i] + [item];
      FilteredAppend(config, result[..i], [item], newIp);
      FilteredOne(config, item, newIp);
    }
    assert result[..|result|] == result;
  }

  /** `sub` is `s` with some elements left out, the rest kept in order. */
  ghost predicate IsSubsequence<T>(sub: seq<T>, s: seq<T>)
    decreases |s|
  {
    if s == [] then sub == []
    else (sub != [] && sub[0] == s[0] && IsSubsequence(sub[1..], s[1..])) || IsSubsequence(sub, s[1..])
  }

  /** The filtered listing is a subsequence of the provider's listing. */
  lemma {:induction false} FilteredIsSubsequence(config: Config, records: seq<Record>, newIp: string)
    ensures IsSubsequence(Filtered(config, records, newIp), records)
    decreases |records|
  {
    if records != [] {
      FilteredIsSubsequence(config, records[1..], newIp);
      var kept := Filtered(config, records, newIp);
      if RecordFilter(config, records[0], newIp) {
        assert kept[1..] == Filtered(config, records[1..], newIp);
      }
    }
  }

  /** Filtering an already filtered listing keeps all of it. */
  lemma {:induction false} FilteredIdempotent(config: Config, records: seq<Record>, newIp: string)
    ensures Filtered(config, Filtered(config, records, newIp), newIp) == Filtered(config, records, newIp)
    decreases |records|
  {
    if records != [] {
      FilteredIdempotent(config, records[1..], newIp);
      var rest := Filtered(config, records[1..], newIp);
      if RecordFilter(config, records[0], newIp) {
        assert ([records[0]] + rest)[1..] == rest;
      }
    }
  }

  // ---------------------------------------------------------------------
  // A second run after every selected record has been rewritten
  // ---------------------------------------------------------------------

  /**
   * The listing the provider returns once the PUT of every selected record
   * has taken effect: each selected record replaced by its patch, every
   * other record as it was.
   */
  ghost function AfterUpdates(config: Config, records: seq<Record>, ip: string): (after: seq<Record>)
    ensures |after| == |records|
    ensures forall i :: 0 <= i < |records| ==>
      after[i] == if RecordFilter(config, records[i], ip) then Patched(records[i], ip) else records[i]
  {
    if records == [] then []
    else
      var head := if RecordFilter(config, records[0], ip) then Patched(records[0], ip) else records[0];
      [head] + AfterUpdates(config, records[1..], ip)
  }

  /** The names of the records the configuration manages, in listing order. */
  ghost function ManagedNames(config: Config, records: seq<Record>): seq<string>
  {
    if records == [] then []
    else
      var rest := ManagedNames(config, records[1..]);
      if Managed(config, records[0]) then [records[0].name] + rest else rest
  }

  /**
   * Reconciliation is idempotent: a second run with the same address selects
   * nothing, and prints "up to date" for exactly the managed records, in
   * listing order, that is, every record the first run reported or rewrote.
   */
  lemma {:induction false} SecondRunSelectsNothing(config: Config, records: seq<Record>, ip: string)
    ensures Filtered(config, AfterUpdates(config, records, ip), ip) == []
    ensures UpToDateNames(config, AfterUpdates(config, records, ip), ip) == ManagedNames(config, records)
    ensures |UpToDateNames(config, AfterUpdates(config, records, ip), ip)|
         == |UpToDateNames(config, records, ip)| + |Filtered(config, records, ip)|
    decreases |records|
  {
    if records != [] {
      var after := AfterUpdates(config, records, ip);
      SecondRunSelectsNothing(config, records[1..], ip);
      ManagedNamesCount(config, records, ip);
      PatchedNotSelected(config, records[0], ip);
      assert after[1..] == AfterUpdates(config, records[1..], ip);
    }
  }

  /** The names of a sequence of records, in order. */
  ghost function Names(records: seq<Record>): (names: seq<string>)
    ensures |names| == |records|
  {
    if records == [] then [] else [records[0].name] + Names(records[1..])
  }

  /**
   * The managed records of a listing are those it logs as up to date plus
   * those it selects: their names agree with multiplicity, and so do their
   * numbers.
   */
  lemma {:induction false} ManagedNamesCount(config: Config, records: seq<Record>, ip: string)
    ensures multiset(ManagedNames(config, records))
         == multiset(UpToDateNames(config, records, ip)) + multiset(Names(Filtered(config, records, ip)))
    ensures |ManagedNames(config, records)| == |UpToDateNames(config, records, ip)| + |Filtered(config, records, ip)|
    decreases |records|
  {
    if records != [] {
      ManagedNamesCount(config, records[1..], ip);
      var rest := Filtered(config, records[1..], ip);
      if RecordFilter(config, records[0], ip) {
        assert ([records[0]] + rest)[1..] == rest;
      }
    }
  }

  // ---------------------------------------------------------------------
  // Zones matched by label, against zones matched by their inner zone_id
  // ---------------------------------------------------------------------

  /**
   * Selection with zones matched by their inner `zone_id` field, under
   * whatever label they are configured.
   */
  ghost predicate SelectsByInnerZoneId(config: Config, record: Record, newIp: string)
  {
    && record.kind == "A"
    && (exists key :: key in config.recordsToUpdate
          && config.recordsToUpdate[key].zoneId == record.zoneId
          && record.name in config.recordsToUpdate[key].records)
    && record.content != newIp
  }

  /** When every zone is configured under its own identifier, the two lookups agree. */
  lemma LookupsAgreeWhenLabelsAreZoneIds(config: Config, record: Record, newIp: string)
    requires forall key :: key in config.recordsToUpdate ==> config.recordsToUpdate[key].zoneId == key
    ensures RecordFilter(config, record, newIp) <==> SelectsByInnerZoneId(config, record, newIp)
  {
  }

  /**
   * A stale, listed record of a zone configured under a label other than its
   * identifier is not selected, though matching by inner `zone_id` would
   * select it, unless some zone is labelled with that identifier.
   */
  lemma LabelledZoneNeverSelected(config: Config, key: string, record: Record, newIp: string)
    requires key in config.recordsToUpdate && config.recordsToUpdate[key].zoneId == record.zoneId
    requires record.kind == "A" && record.name in config.recordsToUpdate[key].records && record.content != newIp
    requires record.zoneId !in config.recordsToUpdate
    ensures SelectsByInnerZoneId(config, record, newIp)
    ensures !RecordFilter(config, record, newIp)
  {
  }

  /** An illustration of `LabelledZoneNeverSelected`: the zone "Z" configured under the label "home". */
  lemma LabelledZoneExample()
    ensures var config := Config("key", map["home" := ZoneConfig("Z", ["www.example.com"])]);
            var record := Record("r1", "Z", "www.example.com", "A", "10.0.0.1");
            !RecordFilter(config, record, "192.168.1.1") && SelectsByInnerZoneId(config, record, "192.168.1.1")
  {
    var config := Config("key", map["home" := ZoneConfig("Z", ["www.example.com"])]);
    var record := Record("r1", "Z", "www.example.com", "A", "10.0.0.1");
    LabelledZoneNeverSelected(config, "home", record, "192.168.1.1");
  }

  /**
   * When another zone is labelled with a record's zone identifier, the code
   * decides by that zone's names: here the record of the zone labelled
   * "home" is selected through the entry labelled "Z".
   */
  lemma LabelShadowsZoneExample()
    ensures var config := Config("key", map["home" := ZoneConfig("Z", ["www.example.com"]),
                                            "Z" := ZoneConfig("other", ["www.example.com"])]);
            var record := Record("r1", "Z", "www.example.com", "A", "10.0.0.1");
            RecordFilter(config, record, "192.168.1.1") && config.recordsToUpdate["Z"].zoneId != record.zoneId
  {
  }
}
