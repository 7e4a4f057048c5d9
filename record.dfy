/**
 * A DNS record as the provider reports it, and the request that rewrites it
 * (the `Record` struct and `Record::update` of src/record.rs).
 */
module Record {

  /** The provider's record; `kind` is the DNS type ("A", "CNAME", ...). */
  datatype Record = Record(id: string, zoneId: string, name: string, kind: string, content: string)

  /** The body and address of the PUT that `Record::update` sends. */
  datatype PutRequest = PutRequest(url: string, body: Record)

  /** `Record::new`: every field holds the argument of the same name. */
  function New(id: string, zoneId: string, name: string, kind: string, content: string): (r: Record)
    ensures r.id == id && r.zoneId == zoneId && r.name == name && r.kind == kind && r.content == content
  {
    Record(id, zoneId, name, kind, content)
  }

  /**
   * The patch built by `Record::update`: the record is moved and only its
   * content is overwritten with the new address.
   */
  function Patched(record: Record, ip: string): (patch: Record)
    ensures patch.content == ip
    ensures patch.id == record.id && patch.zoneId == record.zoneId
    ensures patch.name == record.name && patch.kind == record.kind
    ensures patch == record <==> record.content == ip
  {
    record.(content := ip)
  }

  /** Patching twice with the same address is patching once. */
  lemma PatchedIdempotent(record: Record, ip: string)
    ensures Patched(Patched(record, ip), ip) == Patched(record, ip)
  {
  }

  /** The provider's zones endpoint that both URLs start with. */
  const ZonesEndpoint: string := "https://api.cloudflare.com/client/v4/zones/"

  /**
   * The listing URL of `get_records_for_zone`: the zones endpoint, the zone
   * identifier, then "/dns_records"; the identifier is read back from between
   * the two.
   */
  function ListUrl(zoneId: string): (url: string)
    ensures |url| == |ZonesEndpoint| + |zoneId| + |"/dns_records"|
    ensures url[..|ZonesEndpoint|] == ZonesEndpoint
    ensures url[|ZonesEndpoint|..|url| - |"/dns_records"|] == zoneId
    ensures url[|url| - |"/dns_records"|..] == "/dns_records"
  {
    ZonesEndpoint + zoneId + "/dns_records"
  }

  /** The URL of one record, as `Record::update` formats it. */
  function RecordUrl(zoneId: string, recordId: string): (url: string)
    ensures url == ListUrl(zoneId) + "/" + recordId
  {
    ZonesEndpoint + zoneId + "/dns_records/" + recordId
  }

  /**
   * Two records whose zone identifiers contain no '/' have the same URL only
   * when they have the same zone and the same identifier.
   */
  lemma RecordUrlInjective(z1: string, id1: string, z2: string, id2: string)
    requires '/' !in z1 && '/' !in z2
    requires RecordUrl(z1, id1) == RecordUrl(z2, id2)
    ensures z1 == z2 && id1 == id2
  {
    var tail := "dns_records/";
    var e := |ZonesEndpoint|;
    var u1, u2 := RecordUrl(z1, id1), RecordUrl(z2, id2);
    assert u1 == ZonesEndpoint + (z1 + "/" + tail + id1);
    assert u2 == ZonesEndpoint + (z2 + "/" + tail + id2);
    var r1, r2 := u1[e..], u2[e..];
    assert r1 == z1 + "/" + (tail + id1);
    assert r2 == z2 + "/" + (tail + id2);
    SplitAtFirstSlash(z1, tail + id1, z2, tail + id2);
    assert tail + id1 == tail + id2;
    assert id1 == (tail + id1)[|tail|..];
    assert id2 == (tail + id2)[|tail|..];
  }

  /** A prefix free of '/' is recovered from what follows it and the first '/'. */
  lemma SplitAtFirstSlash(a: string, s: string, b: string, t: string)
    requires '/' !in a && '/' !in b
    requires a + "/" + s == b + "/" + t
    ensures a == b && s == t
  {
    var x, y := a + "/" + s, b + "/" + t;
    SlashAfter(a, s);
    SlashAfter(b, t);
    if |a| < |b| {
      assert false;
    } else if |b| < |a| {
      assert false;
    }
    assert a == x[..|a|];
    assert b == y[..|b|];
    assert s == x[|a| + 1..];
    assert t == y[|b| + 1..];
  }

  /** In `a + "/" + s` the first '/' stands right after `a` when `a` has none. */
  lemma SlashAfter(a: string, s: string)
    ensures (a + "/" + s)[|a|] == '/'
    ensures forall i :: 0 <= i < |a| ==> (a + "/" + s)[i] == a[i]
  {
  }

  /**
   * The pure part of `Record::update`: the PUT is addressed to the record it
   * carries, and carries the record with only its content replaced.
   */
  function UpdateRequest(record: Record, ip: string): (req: PutRequest)
    ensures req.body == Patched(record, ip)
    ensures req.url == RecordUrl(req.body.zoneId, req.body.id)
    ensures req.url == ListUrl(record.zoneId) + "/" + record.id
  {
    var url := RecordUrl(record.zoneId, record.id);
    var patch := Patched(record, ip);
    PutRequest(url, patch)
  }
}
