/**
 * The unit tests of src/record.rs as lemmas, with two further cases of the
 * same kind (`DropZoneNotConfigured`, `SelectStaleRecord`) that no unit
 * test in src/record.rs covers. Each states the result and also which early
 * return of `record_filter` produces it. The tests pass `empty_config()`,
 * whose one zone lists no names, so three of them are decided by the name
 * check; for `drop_unexpected_zone` and `drop_up_to_date_record` that is not
 * the check their names refer to.
 */
module RecordTests {
  import opened Config
  import opened Record
  import opened Filter

  /** `empty_config()`: one zone under the label "foo", with an empty inner id and no names. */
  function EmptyConfig(): (config: Config)
    ensures config.recordsToUpdate.Keys == {"foo"}
    ensures config.recordsToUpdate["foo"].zoneId == "" && config.recordsToUpdate["foo"].records == []
  {
    Config("", map["foo" := ZoneConfig("", [])])
  }

  /** `drop_non_a_record`: a CNAME record is dropped by the kind check. */
  lemma DropNonARecord()
    ensures Classify(EmptyConfig(), New("", "", "", "CNAME", ""), "") == WrongKind
    ensures !RecordFilter(EmptyConfig(), New("", "", "", "CNAME", ""), "")
  {
  }

  /**
   * `drop_unexpected_zone`: the record's zone "foo" is a label of
   * `empty_config()`, so it is the name check that drops it.
   */
  lemma DropUnexpectedZone()
    ensures Classify(EmptyConfig(), New("", "foo", "", "A", ""), "") == UnlistedName
    ensures !RecordFilter(EmptyConfig(), New("", "foo", "", "A", ""), "")
  {
  }

  /** No unit test in src/record.rs covers this: a record whose zone is not among the labels is dropped by the zone check. */
  lemma DropZoneNotConfigured()
    ensures Classify(EmptyConfig(), New("", "bar", "", "A", ""), "") == UnknownZone
    ensures !RecordFilter(EmptyConfig(), New("", "bar", "", "A", ""), "")
  {
  }

  /**
   * `drop_unexpected_record`: the test builds a configuration but passes
   * `empty_config()`; under either, the name check drops the record.
   */
  lemma DropUnexpectedRecord()
    ensures var config := EmptyConfig().(recordsToUpdate := EmptyConfig().recordsToUpdate["foo" := ZoneConfig("foo", [])]);
            Classify(config, New("", "foo", "", "A", ""), "") == UnlistedName
    ensures Classify(EmptyConfig(), New("", "foo", "", "A", ""), "") == UnlistedName
  {
  }

  /**
   * `drop_up_to_date_record`: under the configuration the test builds, the
   * record is dropped as up to date and the line is printed; under
   * `empty_config()`, which the test passes, the name check drops it first
   * and nothing is printed.
   */
  lemma DropUpToDateRecord()
    ensures var config := EmptyConfig().(recordsToUpdate := EmptyConfig().recordsToUpdate["foo" := ZoneConfig("foo", ["bar"])]);
            var record := New("", "foo", "bar", "A", "192.168.1.1");
            Classify(config, record, "192.168.1.1") == UpToDate
            && !RecordFilter(config, record, "192.168.1.1") && LogsUpToDate(config, record, "192.168.1.1")
    ensures var record := New("", "foo", "bar", "A", "192.168.1.1");
            Classify(EmptyConfig(), record, "192.168.1.1") == UnlistedName
            && !LogsUpToDate(EmptyConfig(), record, "192.168.1.1")
  {
  }

  /**
   * No unit test in src/record.rs covers this: a listed record with a different address is
   * selected, and its PUT targets it with the new address.
   */
  lemma SelectStaleRecord()
    ensures var config := Config("k", map["foo" := ZoneConfig("foo", ["bar"])]);
            var record := New("r1", "foo", "bar", "A", "10.0.0.1");
            var req := UpdateRequest(record, "192.168.1.1");
            && RecordFilter(config, record, "192.168.1.1")
            && req.url == "https://api.cloudflare.com/client/v4/zones/foo/dns_records/r1"
            && req.body == New("r1", "foo", "bar", "A", "192.168.1.1")
  {
  }
}
