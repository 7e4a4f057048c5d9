# cloudflare-ddns-rs: record selection and patching

This project models the part of the dynamic-DNS reconciler that decides
which DNS records to rewrite and what the rewrite sends. The reconciler
learns the host's public IPv4 address, lists each configured zone's records
at Cloudflare, and keeps a record when four checks pass:

- it is an "A" record;
- its zone id is a label (a key) of `records_to_update`;
- its name is listed for that zone;
- its content differs from the new address.

Each kept record is sent back with only its content replaced.

Files:

- `config.dfy` (module `Config`): `ZoneConfig` and `Config` from src/config.rs. `records_to_update` is a `map<string, ZoneConfig>` keyed by an operator label. Each zone's names are a `seq<string>`.
- `record.dfy` (module `Record`): the `Record` datatype and `Record::new`. It also holds the patch step of `Record::update`, the two endpoint URLs, and the PUT's URL and its patched body.
- `filter.dfy` (module `Filter`): `record_filter` and the filtering pass of `get_records_for_zone`, with their properties.
  - `Classify` returns which of the early returns a record leaves by. `RecordFilter` is the boolean the code returns. `LogsUpToDate` is whether the "Record … is up to date" line is printed.
  - The pass is the method `SelectRecords`, a loop that appends to a sequence. It is proved equal to the recursive specification `Filtered`, and `Filtered` is proved to be an order-preserving subsequence of the listing.
  - The idempotence results: a patched record is not selected again, and a second run after every update selects nothing and reports every managed record up to date.
- `record_tests.dfy` (module `RecordTests`): the unit tests of src/record.rs as lemmas, plus two cases that no unit test in src/record.rs covers (`DropZoneNotConfigured`, `SelectStaleRecord`).

## Zone lookup: by label, not by inner zone id

The intended behaviour is that a record's zone is found by the inner
`ZoneConfig.zone_id` field. The code instead looks the record's `zone_id`
up as a key of `records_to_update` (src/record.rs:119), which is the
operator label. **This model follows the code.** Meanwhile src/main.rs:22-24
lists every zone by its inner `zone_id`, so the provider returns records that
carry that inner id. The result is that a zone configured under a label
different from its id has none of its records selected, unless some other
zone happens to be labelled with that id; in that case that other zone's
names decide.

- `Filter.SelectsByInnerZoneId` states selection with zones matched by their inner `zone_id`.
- `Filter.LookupsAgreeWhenLabelsAreZoneIds` proves that the two lookups agree when every label equals its zone's id.
- `Filter.LabelledZoneNeverSelected` proves that a stale, listed record of a zone whose id is no label is not selected, though matching by inner id would select it. `Filter.LabelledZoneExample` illustrates it on one configuration.
- `Filter.LabelShadowsZoneExample` shows the exception: a record is selected through another zone that is labelled with its zone's id.

The unit tests pass `empty_config()` instead of the configuration they
build (src/record.rs:181, 201). Its one zone, labelled "foo", lists no
names, so `drop_unexpected_zone`, `drop_unexpected_record` and
`drop_up_to_date_record` are all decided by the name check. The lemmas in
`RecordTests` state which return each test actually reaches.

## Model

| member | source | states |
|---|---|---|
| `Record.New` | src/record.rs:27-35 | each field of the new record holds the argument of the same name |
| `Record.Patched` | src/record.rs:53-54 | the patch has content equal to the new address and the same id, zone id, name and kind; it equals the original exactly when the content already matched |
| `Record.PatchedIdempotent` | src/record.rs:53-54 | patching twice with one address gives the same record as patching once |
| `Record.ListUrl` | src/record.rs:66-69 | the listing URL is the zones endpoint, the zone id and "/dns_records", and the zone id is recovered from between the two |
| `Record.RecordUrl` | src/record.rs:38-42 | a record's URL is the zone's listing URL (lines 66-69) followed by "/" and the record id |
| `Record.RecordUrlInjective` | src/record.rs:38-42 | when zone ids contain no '/', two (zone, record id) pairs with the same URL are identical |
| `Record.UpdateRequest` | src/record.rs:37-58 | the PUT carries the patched record and is addressed to that same record's URL (its zone id and id, which the patch keeps) |
| `Filter.Classify` | src/record.rs:114-138 | each return is taken exactly when the earlier checks passed and its own check fails: kind not "A"; zone id no key; name not listed; content equal to the new address; otherwise the record is stale |
| `Filter.RecordFilter` | src/record.rs:114-138 | the record is selected exactly when it is an "A" record, its zone id is a key of `records_to_update`, its name is listed there, and its content differs from the new address |
| `Filter.LogsUpToDate` | src/record.rs:131-135 | the "up to date" line is printed exactly when the first three checks pass and the content equals the new address; a logged record is never selected |
| `Filter.NonARecordDropped` | src/record.rs:114-117 | a record whose kind is not "A" is neither selected nor logged, for every configuration and address |
| `Filter.UnknownZoneDropped` | src/record.rs:119-123 | a record whose zone id is not a key of `records_to_update` is dropped silently for every address |
| `Filter.UnlistedNameDropped` | src/record.rs:124-128 | a record in a configured zone whose name is not listed is dropped silently for every address |
| `Filter.UpToDateDropped` | src/record.rs:131-135 | a record already holding the address is not selected; it is logged exactly when the config manages it |
| `Filter.ExactlyOneOutcome` | src/record.rs:114-138 | every record is exactly one of: unmanaged and silent, logged up to date, or selected |
| `Filter.SelectionIgnoresApiKey` | src/record.rs:114-138 | the decision does not depend on the API key |
| `Filter.PatchedNotSelected` | src/record.rs:131-135 | a patched record is never selected with the same address; it is logged when managed; the checks before the address comparison decide as before |
| `Filter.Filtered` | src/record.rs:92-97 | the kept records are no more than the listing; every kept record is in the listing and passes the filter; every listed record that passes is kept |
| `Filter.FilteredKeepsEveryCopy` | src/record.rs:92-97 | each passing record is kept as many times as the listing holds it, and no other record is kept: exactly the passing records of the listing |
| `Filter.UpToDateNames` | src/record.rs:133 | the names logged plus the records kept never outnumber the listing; every logged record's name appears |
| `Filter.UpToDateNamesAreLogged` | src/record.rs:131-135 | every printed name is the name of a record of the listing that was reported up to date |
| `Filter.FilteredAppend` | src/record.rs:92-97 | filtering and logging distribute over concatenation of listings |
| `Filter.SelectRecords` | src/record.rs:92-99 | the loop returns exactly `Filtered` of the listing and exactly the names logged during the walk, in order |
| `Filter.FilteredIsSubsequence` | src/record.rs:92-99 | the filtered listing is a subsequence of the provider's listing (the order is kept) |
| `Filter.FilteredIdempotent` | src/record.rs:92-97 | filtering a filtered listing changes nothing |
| `Filter.AfterUpdates` | src/record.rs:102-112 | the listing after every selected record's PUT took effect has the same length; each selected record is replaced by its patch and the others are unchanged |
| `Filter.SecondRunSelectsNothing` | src/record.rs:92-112 | a second run with the same address selects nothing and prints "up to date" for exactly the managed records, in listing order: as many as the first run logged plus rewrote |
| `Filter.ManagedNamesCount` | src/record.rs:114-138 | the names of the managed records equal, with multiplicity, the names logged up to date plus the names of the records selected; so the numbers add up too |
| `Filter.LookupsAgreeWhenLabelsAreZoneIds` | src/record.rs:119-129 | when every label equals its zone's id, lookup by label selects exactly what lookup by inner zone id would |
| `Filter.LabelledZoneNeverSelected` | src/record.rs:119-123 | a stale, listed record of a configured zone whose id is not itself a label is not selected, though lookup by inner zone id selects it |
| `Filter.LabelledZoneExample` | src/record.rs:119-123 | an illustration of the general lemma, not further evidence: zone "Z" under label "home", its stale listed record is not selected |
| `Filter.LabelShadowsZoneExample` | src/record.rs:119-129 | a record of the zone labelled "home" is selected through another entry labelled with its zone id, whose inner id differs |
| `RecordTests.EmptyConfig` | src/record.rs:205-219 | the fixture has the single label "foo", whose zone has an empty inner id and no names |
| `RecordTests.DropNonARecord` | src/record.rs:149-157 | the CNAME record of the test is dropped by the kind check |
| `RecordTests.DropUnexpectedZone` | src/record.rs:159-167 | the test's record is dropped, by the name check, since "foo" is a label of `empty_config()` |
| `RecordTests.DropZoneNotConfigured` | src/record.rs:119-123 | no unit test in src/record.rs covers this: a record whose zone is no label is dropped by the zone check |
| `RecordTests.DropUnexpectedRecord` | src/record.rs:169-183 | the test's record is dropped by the name check under both the built configuration and `empty_config()` |
| `RecordTests.DropUpToDateRecord` | src/record.rs:185-203 | under the built configuration the record is dropped as up to date and logged; under `empty_config()`, which the test passes, the name check drops it and nothing is logged |
| `RecordTests.SelectStaleRecord` | src/record.rs:37-58 | no unit test in src/record.rs covers this: a listed record with another address is selected, and its PUT goes to `.../zones/foo/dns_records/r1` with content set to the new address |

## Left out

- HTTP: the `reqwest` client and the GET and PUT calls (src/record.rs:46-51, 56-57, 83-90). The header construction, including the bearer token, is left out too. These are network I/O through a foreign library. The model stops at the request URL and body.
- `get_public_ip` (src/ip.rs:10-14) is network I/O. The new address is a parameter of every operation.
- `update_records` (src/record.rs:102-112) and the zone loop of `main` (src/main.rs:11-32) are async I/O sequencing whose outcomes depend on HTTP results. `AfterUpdates` only describes the listing the provider would return if every PUT issued for a selected record succeeded; each record gets one `update` call.
- `read_config` (src/config.rs:19-25) and the serde (de)serialisation of `CfResponse` and `Record`, including the `type` rename. These are file I/O and library parsing. `CfResponse`'s `success` and `errors` fields are never read by the code and are not modelled. The filtering pass takes the response's `result` list as its input.
- `ApplicationError` and its `Display` impl (src/error.rs) wrap foreign error types.
- Output lines: everything printed except the "up to date" line is left out, including the API key that `get_records_for_zone` prints. The "up to date" line is modelled by `LogsUpToDate` and by the names `SelectRecords` returns.
- Command-line parsing: the `command` module is not part of this model.
- Rust ownership: `Record::update` moves the record and assigns its `content` field. No other reference to it exists, so the model treats it as a value update and returns a new record.
