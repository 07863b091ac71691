/**
 * The three lookups of plugins/modules/route53.py over what the provider
 * lists: the record set to reconcile (`get_record`), the hosted zone
 * (`get_zone_id_by_name`) and the zone's name servers
 * (`get_hosted_zone_nameservers`). The listings are taken as given
 * sequences, already fully paginated.
 */
module Lookup {
  import opened Wrappers
  import opened Arguments
  import opened RecordSets
  import opened Search

  // ---------------------------------------------------------------- record

  /** A record set answers the query when (Name, Type) agree and, for a truthy identifier, SetIdentifier does too. */
  predicate RecordMatches(rs: RecordSet, name: string, rtype: RecordType, identifier: Option<string>) {
    && rs.name == name
    && rs.rtype == rtype
    && (Truthy(identifier) ==> rs.setIdentifier == identifier)
  }

  /** `i` is the position of the first record set answering the query. */
  predicate FirstRecordAt(sets: seq<RecordSet>, name: string, rtype: RecordType, identifier: Option<string>, i: int) {
    && 0 <= i < |sets|
    && RecordMatches(sets[i], name, rtype, identifier)
    && forall j :: 0 <= j < i ==> !RecordMatches(sets[j], name, rtype, identifier)
  }

  /** The record set `get_record` returns. */
  function FindRecord(sets: seq<RecordSet>, name: string, rtype: RecordType, identifier: Option<string>): (r: Option<RecordSet>)
    ensures r.None? <==> forall i :: 0 <= i < |sets| ==> !RecordMatches(sets[i], name, rtype, identifier)
    ensures forall i :: FirstRecordAt(sets, name, rtype, identifier, i) ==> r == Some(sets[i])
    ensures r.Some? ==> exists i :: FirstRecordAt(sets, name, rtype, identifier, i) && r.value == sets[i]
  {
    match FirstIndex(sets, rs => RecordMatches(rs, name, rtype, identifier))
    case None => None
    case Some(i) =>
      assert FirstRecordAt(sets, name, rtype, identifier, i);
      Some(sets[i])
  }

  method GetRecord(sets: seq<RecordSet>, name: string, rtype: RecordType, identifier: Option<string>)
    returns (r: Option<RecordSet>)
    ensures r == FindRecord(sets, name, rtype, identifier)
  {
    for i := 0 to |sets|
      invariant forall j :: 0 <= j < i ==> !RecordMatches(sets[j], name, rtype, identifier)
    {
      var recordSet := sets[i];
      if (name, rtype) != (recordSet.name, recordSet.rtype) {
        continue;
      }
      if Truthy(identifier) && identifier != recordSet.setIdentifier {
        continue;
      }
      assert FirstRecordAt(sets, name, rtype, identifier, i);
      return Some(recordSet);
    }
    return None;
  }

  /** An identifier that is absent or empty is not used to match. */
  lemma EmptyIdentifierIgnored(sets: seq<RecordSet>, name: string, rtype: RecordType)
    ensures FindRecord(sets, name, rtype, Some("")) == FindRecord(sets, name, rtype, None)
  {
    if FindRecord(sets, name, rtype, None).Some? {
      var i :| FirstRecordAt(sets, name, rtype, None, i);
      assert FirstRecordAt(sets, name, rtype, Some(""), i);
    }
  }

  // ------------------------------------------------------------------ zone

  const HostedZonePrefix: string := "/hostedzone/"

  /** `zone_id.replace("/hostedzone/", "")`: every occurrence removed, scanning left to right. */
  function StripHostedZonePrefix(s: string): (r: string)
    ensures |r| <= |s|
    ensures (|s| - |r|) % |HostedZonePrefix| == 0
    decreases |s|
  {
    if |s| < |HostedZonePrefix| then s
    else if s[..|HostedZonePrefix|] == HostedZonePrefix then StripHostedZonePrefix(s[|HostedZonePrefix|..])
    else [s[0]] + StripHostedZonePrefix(s[1..])
  }

  lemma {:induction false} StripWithoutSlash(s: string)
    requires '/' !in s
    ensures StripHostedZonePrefix(s) == s
    decreases |s|
  {
    if |s| >= |HostedZonePrefix| {
      assert s[..|HostedZonePrefix|][0] == s[0] != '/';
      StripWithoutSlash(s[1..]);
      assert s == [s[0]] + s[1..];
    }
  }

  /** The API's "/hostedzone/Z123" becomes the bare zone id "Z123". */
  lemma ZoneIdOfApiId(id: string)
    requires '/' !in id
    ensures StripHostedZonePrefix(HostedZonePrefix + id) == id
  {
    assert (HostedZonePrefix + id)[..|HostedZonePrefix|] == HostedZonePrefix;
    assert (HostedZonePrefix + id)[|HostedZonePrefix|..] == id;
    StripWithoutSlash(id);
  }

  /** `module.boolean(zone['Config'].get('PrivateZone', False))` */
  predicate IsPrivate(z: HostedZone) {
    z.privateZone == Some(true)
  }

  function ZoneId(z: HostedZone): string {
    StripHostedZonePrefix(z.id)
  }

  /**
   * A zone qualifies when its privacy and Name agree with the query and, for a
   * truthy VPC id, that VPC is among the zone's VPCs (`vpcsOf` stands for the
   * extra `get_hosted_zone` call).
   */
  predicate ZoneMatches(z: HostedZone, zoneName: string, wantPrivate: bool, wantVpc: Option<string>, vpcsOf: string -> seq<string>) {
    && IsPrivate(z) == wantPrivate
    && z.name == zoneName
    && (Truthy(wantVpc) ==> wantVpc.value in vpcsOf(ZoneId(z)))
  }

  predicate FirstZoneAt(zones: seq<HostedZone>, zoneName: string, wantPrivate: bool, wantVpc: Option<string>, vpcsOf: string -> seq<string>, i: int) {
    && 0 <= i < |zones|
    && ZoneMatches(zones[i], zoneName, wantPrivate, wantVpc, vpcsOf)
    && forall j :: 0 <= j < i ==> !ZoneMatches(zones[j], zoneName, wantPrivate, wantVpc, vpcsOf)
  }

  /** The zone id `get_zone_id_by_name` returns. */
  function FindZoneId(zones: seq<HostedZone>, zoneName: string, wantPrivate: bool, wantVpc: Option<string>, vpcsOf: string -> seq<string>): (r: Option<string>)
    ensures r.None? <==> forall i :: 0 <= i < |zones| ==> !ZoneMatches(zones[i], zoneName, wantPrivate, wantVpc, vpcsOf)
    ensures forall i :: FirstZoneAt(zones, zoneName, wantPrivate, wantVpc, vpcsOf, i) ==> r == Some(ZoneId(zones[i]))
    ensures r.Some? ==> exists i :: FirstZoneAt(zones, zoneName, wantPrivate, wantVpc, vpcsOf, i) && r.value == ZoneId(zones[i])
  {
    match FirstIndex(zones, z => ZoneMatches(z, zoneName, wantPrivate, wantVpc, vpcsOf))
    case None => None
    case Some(k) =>
      assert forall i :: FirstZoneAt(zones, zoneName, wantPrivate, wantVpc, vpcsOf, i) ==> i == k;
      assert FirstZoneAt(zones, zoneName, wantPrivate, wantVpc, vpcsOf, k);
      Some(ZoneId(zones[k]))
  }

  method GetZoneIdByName(zones: seq<HostedZone>, vpcsOf: string -> seq<string>, zoneName: string, wantPrivate: bool, wantVpc: Option<string>)
    returns (r: Option<string>)
    ensures r == FindZoneId(zones, zoneName, wantPrivate, wantVpc, vpcsOf)
  {
    for i := 0 to |zones|
      invariant forall j :: 0 <= j < i ==> !ZoneMatches(zones[j], zoneName, wantPrivate, wantVpc, vpcsOf)
    {
      var zone := zones[i];
      var privateZone := IsPrivate(zone);
      var zoneId := StripHostedZonePrefix(zone.id);
      if privateZone == wantPrivate && zone.name == zoneName {
        if Truthy(wantVpc) {
          var vpcs := vpcsOf(zoneId);
          if wantVpc.value in vpcs {
            assert FirstZoneAt(zones, zoneName, wantPrivate, wantVpc, vpcsOf, i);
            return Some(zoneId);
          }
        } else {
          assert FirstZoneAt(zones, zoneName, wantPrivate, wantVpc, vpcsOf, i);
          return Some(zoneId);
        }
      }
    }
    return None;
  }

  // ----------------------------------------------------------- nameservers

  predicate IsZoneNsRecord(rs: RecordSet, zoneName: string) {
    rs.name == zoneName && rs.rtype == NS
  }

  predicate FirstNsAt(sets: seq<RecordSet>, zoneName: string, i: int) {
    && 0 <= i < |sets|
    && IsZoneNsRecord(sets[i], zoneName)
    && forall j :: 0 <= j < i ==> !IsZoneNsRecord(sets[j], zoneName)
  }

  /**
   * `get_hosted_zone_nameservers`: the Values, in order, of the first NS
   * record named after the zone. None stands for the exception raised when
   * there is no such record (`[0]` of an empty list) or it has no
   * ResourceRecords.
   */
  function Nameservers(zoneName: string, sets: seq<RecordSet>): (r: Option<seq<string>>)
    ensures (forall i :: 0 <= i < |sets| ==> !IsZoneNsRecord(sets[i], zoneName)) ==> r.None?
    ensures forall i :: FirstNsAt(sets, zoneName, i) ==>
      r == if sets[i].resourceRecords.Some? then Some(ValueList(sets[i].resourceRecords.value)) else None
  {
    match FirstIndex(sets, rs => IsZoneNsRecord(rs, zoneName))
    case None => None
    case Some(i) =>
      match sets[i].resourceRecords
      case None => None
      case Some(rrs) => Some(ValueList(rrs))
  }
}
