/**
 * The Route 53 entities the module reads and writes. A record set is a Python
 * dict in the module; here it is a datatype whose `Option` fields are `None`
 * exactly when the dict has no such key, so that structural equality is the
 * dict equality the module relies on.
 */
module RecordSets {
  import opened Wrappers

  /** The record types the module accepts, and any other type a zone may hold. */
  datatype RecordType = A | AAAA | CAA | CNAME | MX | NS | PTR | SOA | SPF | SRV | TXT | Other(typeName: string)

  datatype Failover = Primary | Secondary

  /** One `{'Value': ...}` entry of `ResourceRecords`. */
  datatype ResourceRecord = ResourceRecord(value: string)

  /** `AliasTarget`: built after the scrub, so its fields are kept even when None. */
  datatype AliasTarget = AliasTarget(hostedZoneId: Option<string>, dnsName: string, evaluateTargetHealth: bool)

  datatype RecordSet = RecordSet(
    name: string,
    rtype: RecordType,
    setIdentifier: Option<string>,
    weight: Option<int>,
    region: Option<string>,
    failover: Option<Failover>,
    ttl: Option<int>,
    resourceRecords: Option<seq<ResourceRecord>>,
    healthCheckId: Option<string>,
    aliasTarget: Option<AliasTarget>)

  /** An entry of the hosted-zone listing; `privateZone` is `Config.PrivateZone`, when present. */
  datatype HostedZone = HostedZone(id: string, name: string, privateZone: Option<bool>)

  /** `[dict(Value=value) for value in values]` */
  function AsResourceRecords(values: seq<string>): (r: seq<ResourceRecord>)
    ensures |r| == |values|
  {
    seq(|values|, i requires 0 <= i < |values| => ResourceRecord(values[i]))
  }

  /** `[rr['Value'] for rr in rrs]` */
  function ValueList(rrs: seq<ResourceRecord>): (r: seq<string>)
    ensures |r| == |rrs|
  {
    seq(|rrs|, i requires 0 <= i < |rrs| => rrs[i].value)
  }

  /** Reading the values back out of the records built from them gives the values. */
  lemma ValueListRoundTrip(values: seq<string>)
    ensures ValueList(AsResourceRecords(values)) == values
  {
  }

  lemma {:induction false} CountInResourceRecords(values: seq<string>, rr: ResourceRecord)
    ensures multiset(AsResourceRecords(values))[rr] == multiset(values)[rr.value]
    decreases |values|
  {
    if |values| > 0 {
      CountInResourceRecords(values[1..], rr);
      assert AsResourceRecords(values) == [ResourceRecord(values[0])] + AsResourceRecords(values[1..]);
      assert values == [values[0]] + values[1..];
    }
  }

  /** Value lists that are permutations of each other give record lists that are. */
  lemma {:induction false} ResourceRecordsPermutation(v1: seq<string>, v2: seq<string>)
    requires multiset(v1) == multiset(v2)
    ensures multiset(AsResourceRecords(v1)) == multiset(AsResourceRecords(v2))
  {
    forall rr: ResourceRecord
      ensures multiset(AsResourceRecords(v1))[rr] == multiset(AsResourceRecords(v2))[rr]
    {
      CountInResourceRecords(v1, rr);
      CountInResourceRecords(v2, rr);
    }
  }
}
