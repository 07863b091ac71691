/**
 * The desired record set `main` builds from its parameters: the dict literal
 * passed through `scrub_none_parameters`, then the alias rewrite and the
 * CAA ordering, applied to it in place.
 */
module Builder {
  import opened Wrappers
  import opened RecordSets
  import opened CaaOrder
  import opened Arguments
  import opened Outcomes

  /**
   * The literal with Name, Type, Weight, Region, Failover, TTL,
   * ResourceRecords and HealthCheckId after the None-valued keys are
   * dropped. It has no SetIdentifier key.
   */
  function ScrubbedRecordSet(p: Params, recordIn: string, valueIn: seq<string>): (r: RecordSet)
    ensures r.name == recordIn && r.rtype == p.rtype
    ensures r.weight == p.weight && r.region == p.region && r.failover == p.failover
    ensures r.ttl == p.ttl && r.healthCheckId == p.healthCheck
    ensures r.setIdentifier.None? && r.aliasTarget.None?
    // ResourceRecords is a list, never None: it survives the scrub even when empty
    ensures r.resourceRecords.Some? && ValueList(r.resourceRecords.value) == valueIn
  {
    ValueListRoundTrip(valueIn);
    RecordSet(recordIn, p.rtype, None, p.weight, p.region, p.failover, p.ttl,
              Some(AsResourceRecords(valueIn)), p.healthCheck, None)
  }

  /** Whether the run gets past building the record set. */
  predicate BuildSucceeds(p: Params, valueIn: seq<string>) {
    !(IsTrue(p.alias) && (|valueIn| == 0 || p.rtype == CAA))
  }

  /** The record set the module would submit, or the exception building it raises. */
  function DesiredRecordSet(p: Params, recordIn: string, valueIn: seq<string>): (r: Result<RecordSet, Crash>)
    ensures r.Ok? <==> BuildSucceeds(p, valueIn)
    ensures r.Err? ==> r.error == if |valueIn| == 0 then AliasValueMissing else CaaAliasRecords
    ensures r.Ok? ==>
      && r.value.name == recordIn && r.value.rtype == p.rtype
      && r.value.setIdentifier.None?
      && r.value.weight == p.weight && r.value.region == p.region
      && r.value.failover == p.failover && r.value.healthCheckId == p.healthCheck
    // an alias carries AliasTarget and neither TTL nor ResourceRecords
    ensures r.Ok? && IsTrue(p.alias) ==>
      && r.value.aliasTarget == Some(AliasTarget(p.aliasHostedZoneId, valueIn[0], p.aliasEvaluateTargetHealth))
      && r.value.ttl.None? && r.value.resourceRecords.None?
    // any other record carries its TTL and all of its values, and no AliasTarget
    ensures r.Ok? && !IsTrue(p.alias) ==>
      && r.value.aliasTarget.None? && r.value.ttl == p.ttl
      && r.value.resourceRecords.Some?
      && multiset(r.value.resourceRecords.value) == multiset(AsResourceRecords(valueIn))
    ensures r.Ok? && !IsTrue(p.alias) && p.rtype != CAA ==>
      r.value.resourceRecords == Some(AsResourceRecords(valueIn))
    ensures r.Ok? && p.rtype == CAA ==> SortedByValue(r.value.resourceRecords.value)
  {
    var scrubbed := ScrubbedRecordSet(p, recordIn, valueIn);
    if IsTrue(p.alias) && |valueIn| == 0 then Err(AliasValueMissing)
    else
      var shaped :=
        if IsTrue(p.alias) then
          scrubbed.(aliasTarget := Some(AliasTarget(p.aliasHostedZoneId, valueIn[0], p.aliasEvaluateTargetHealth)),
                    resourceRecords := None, ttl := None)
        else scrubbed;
      if p.rtype != CAA then Ok(shaped)
      else
        match shaped.resourceRecords
        case None => Err(CaaAliasRecords)
        case Some(rrs) => Ok(shaped.(resourceRecords := Some(SortByValue(rrs))))
  }

  /** Lines 551-575 of `main`, updating the record set step by step. */
  method BuildRecordSet(p: Params, recordIn: string, valueIn: seq<string>) returns (r: Result<RecordSet, Crash>)
    ensures r == DesiredRecordSet(p, recordIn, valueIn)
  {
    var recordSet := ScrubbedRecordSet(p, recordIn, valueIn);
    if IsTrue(p.alias) {
      if |valueIn| == 0 {
        return Err(AliasValueMissing);
      }
      recordSet := recordSet.(aliasTarget := Some(AliasTarget(p.aliasHostedZoneId, valueIn[0], p.aliasEvaluateTargetHealth)));
      if recordSet.resourceRecords.Some? {
        recordSet := recordSet.(resourceRecords := None);
      }
      if recordSet.ttl.Some? {
        recordSet := recordSet.(ttl := None);
      }
    }
    if p.rtype == CAA {
      if recordSet.resourceRecords.None? {
        return Err(CaaAliasRecords);
      }
      recordSet := recordSet.(resourceRecords := Some(SortByValue(recordSet.resourceRecords.value)));
    }
    return Ok(recordSet);
  }

  /** For CAA the order of the given values does not matter: permuted value lists build the same record set. */
  lemma CaaValueOrderIrrelevant(p: Params, recordIn: string, v1: seq<string>, v2: seq<string>)
    requires p.rtype == CAA
    requires multiset(v1) == multiset(v2)
    ensures DesiredRecordSet(p, recordIn, v1) == DesiredRecordSet(p, recordIn, v2)
  {
    assert |v1| == |multiset(v1)| == |multiset(v2)| == |v2|;
    if !IsTrue(p.alias) {
      ResourceRecordsPermutation(v1, v2);
      SortByValueCanonical(AsResourceRecords(v1), AsResourceRecords(v2));
    }
  }

  /** Under the argument spec, the one dict the scrub does not reach holds no None either. */
  lemma AliasTargetComplete(p: Params, recordIn: string, valueIn: seq<string>)
    requires ArgumentSpecHolds(p)
    requires DesiredRecordSet(p, recordIn, valueIn).Ok?
    ensures DesiredRecordSet(p, recordIn, valueIn).value.aliasTarget.Some? ==>
      DesiredRecordSet(p, recordIn, valueIn).value.aliasTarget.value.hostedZoneId.Some?
  {
  }
}
