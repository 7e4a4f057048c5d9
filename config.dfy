/**
 * The configuration the reconciler is run with (src/config.rs).
 *
 * `records_to_update` maps an operator-chosen label to the zone it manages;
 * each zone lists the fully-qualified record names whose address is kept in
 * step with the host's public address. Reading and decoding the JSON file is
 * not part of this model.
 */
module Config {

  /** One managed zone: the provider's zone identifier and the record names to rewrite. */
  datatype ZoneConfig = ZoneConfig(zoneId: string, records: seq<string>)

  /** The whole configuration: the bearer token and the managed zones, keyed by label. */
  datatype Config = Config(cfApiKey: string, recordsToUpdate: map<string, ZoneConfig>)
}
