/**
 * `main` of plugins/modules/route53.py: from the parameters and what the
 * provider lists, the change the module makes and how the run ends.
 * `ModuleOutcome` is the reference definition, composed of the steps of
 * `main`; `RunModule` follows `main` statement by statement and is proved
 * to agree with it.
 */
module Route53 {
  import opened Wrappers
  import opened Names
  import opened RecordSets
  import opened Lookup
  import opened Arguments
  import opened Outcomes
  import opened Builder

  /** What the provider answers, fully paginated. */
  datatype Provider = Provider(
    hostedZones: seq<HostedZone>,             // list_hosted_zones
    vpcsOf: string -> seq<string>,            // get_hosted_zone(Id)['VPCs'], as VPC ids
    zoneNameOf: string -> string,             // get_hosted_zone(Id)['HostedZone']['Name']
    recordSetsOf: string -> seq<RecordSet>)   // list_resource_record_sets(HostedZoneId)

  /** `zone_in`: an absent zone becomes "" and then ".". */
  function ZoneIn(p: Params): string {
    NormalizeName(if p.zone.Some? then p.zone.value else "")
  }

  function RecordIn(p: Params): string {
    NormalizeName(p.record)
  }

  /** `private_zone_in`: a VPC id, even an empty one, forces the private zone. */
  function PrivateZoneIn(p: Params): (r: bool)
    ensures p.vpcId.Some? ==> r
    ensures p.vpcId.None? ==> r == p.privateZone
  {
    p.vpcId.Some? || p.privateZone
  }

  /** The checks made before any call to the provider, first failing one first. */
  function Validate(p: Params): (r: Option<Failure>)
    // `get` is never checked
    ensures CommandOf(p.state) == Get ==> r.None?
    // an alias needs exactly one value
    ensures CommandOf(p.state) != Get && IsTrue(p.alias) && |ValuesIn(p)| != 1 ==>
      r == Some(AliasNeedsSingleValue)
    // an identifier needs a weight, region or failover policy
    ensures (&& CommandOf(p.state) != Get && !(IsTrue(p.alias) && |ValuesIn(p)| != 1)
             && p.weight.None? && p.region.None? && p.failover.None? && p.identifier.Some?) ==>
      r == Some(IdentifierWithoutPolicy)
    // nothing else fails
    ensures (&& !(IsTrue(p.alias) && |ValuesIn(p)| != 1)
             && !(p.weight.None? && p.region.None? && p.failover.None? && p.identifier.Some?)) ==>
      r.None?
  {
    if CommandOf(p.state) == Get then None
    else if IsTrue(p.alias) && |ValuesIn(p)| != 1 then Some(AliasNeedsSingleValue)
    else if p.weight.None? && p.region.None? && p.failover.None? && p.identifier.Some? then Some(IdentifierWithoutPolicy)
    else None
  }

  /** `hosted_zone_id_in or get_zone_id_by_name(...)` */
  function ResolveZone(p: Params, aws: Provider): (r: Option<string>)
    ensures Truthy(p.hostedZoneId) ==> r == p.hostedZoneId
    ensures !Truthy(p.hostedZoneId) ==>
      (r.None? <==> forall i :: 0 <= i < |aws.hostedZones| ==>
                      !ZoneMatches(aws.hostedZones[i], ZoneIn(p), PrivateZoneIn(p), p.vpcId, aws.vpcsOf))
  {
    if Truthy(p.hostedZoneId) then p.hostedZoneId
    else FindZoneId(aws.hostedZones, ZoneIn(p), PrivateZoneIn(p), p.vpcId, aws.vpcsOf)
  }

  /** The record set `get_record` finds in the resolved zone. */
  function CurrentRecord(p: Params, aws: Provider, zoneId: string): Option<RecordSet> {
    FindRecord(aws.recordSetsOf(zoneId), RecordIn(p), p.rtype, p.identifier)
  }

  /** The `get` report. An existing record's dict has no 'values' key, so for NS the list is empty. */
  function GetOutcome(rtype: RecordType, current: Option<RecordSet>, zoneName: string, sets: seq<RecordSet>): (r: Outcome)
    ensures r.Found? || r.Crashed?
    ensures r.Found? ==> r.recordSet == current
    ensures rtype == NS ==> (r.Crashed? <==> current.None?) && (r.Found? ==> r.nameservers == [])
    ensures rtype != NS ==> (r.Crashed? <==> Nameservers(zoneName, sets).None?)
    ensures rtype != NS && r.Found? ==> Nameservers(zoneName, sets) == Some(r.nameservers)
    ensures r.Crashed? ==> r.crash == if rtype == NS then NsGetWithoutRecord else NoNameserverRecord
  {
    if rtype == NS then
      if current.None? then Crashed(NsGetWithoutRecord) else Found(current, [])
    else
      match Nameservers(zoneName, sets)
      case None => Crashed(NoNameserverRecord)
      case Some(ns) => Found(current, ns)
  }

  /**
   * The end of the run once `action` is submitted. The diff's `after` is
   * the desired record set for every action: the source compares the
   * upper-case command with 'delete'.
   */
  function Submitted(action: Action, current: Option<RecordSet>, desired: RecordSet, submit: SubmitResult): (r: Outcome)
    ensures r.Changed? <==> submit == Accepted
    ensures r.Changed? ==> r.action == action && r.before == current && r.after == desired
    ensures r == Unchanged <==> submit == AlreadyExists
    ensures r.Failed? <==> submit == WaiterError || submit == ProviderError || submit == OtherError
    ensures !r.Found? && !r.Crashed?
  {
    match submit
    case Accepted => Changed(action, current, desired)
    case AlreadyExists => Unchanged
    case WaiterError => Failed(WaitTimeout)
    case ProviderError => Failed(UpdateFailed)
    case OtherError => Failed(UnhandledException)
  }

  /** The choice between no change, refusal, CREATE, UPSERT and DELETE. */
  function Decide(command: Command, desired: RecordSet, current: Option<RecordSet>, overwrite: Option<bool>, submit: SubmitResult): (r: Outcome)
    requires command != Get
    // nothing to do: the record set is already as desired, or already gone
    ensures (command == Create && current == Some(desired)) || (command == Delete && current.None?) ==> r == Unchanged
    // a differing record set is replaced only with overwrite
    ensures r == Failed(RecordExists) <==>
      command == Create && current.Some? && current != Some(desired) && !IsTrue(overwrite)
    ensures r.Changed? ==> submit == Accepted && r.before == current && r.after == desired
    ensures r.Changed? ==> (r.action == DELETE <==> command == Delete)
    ensures r.Changed? && command == Create ==> r.action == if current.Some? then UPSERT else CREATE
    ensures !r.Found? && !r.Crashed?
  {
    if command == Create && current == Some(desired) then Unchanged
    else if command == Delete && current.None? then Unchanged
    else if command == Create && current.Some? && !IsTrue(overwrite) then Failed(RecordExists)
    else
      var action := if command == Delete then DELETE else if current.Some? then UPSERT else CREATE;
      Submitted(action, current, desired, submit)
  }

  /** How a run of the module ends. */
  function ModuleOutcome(p: Params, aws: Provider, submit: SubmitResult): (r: Outcome)
    ensures Validate(p).Some? ==> r == Failed(Validate(p).value)
    ensures Validate(p).None? && ResolveZone(p, aws).None? ==> r == Failed(ZoneNotFound(ZoneIn(p)))
    ensures r.Found? ==> CommandOf(p.state) == Get && ResolveZone(p, aws).Some?
    ensures r.Changed? ==> CommandOf(p.state) != Get && submit == Accepted
    ensures CommandOf(p.state) == Get ==> !r.Changed? && r != Unchanged
  {
    match Validate(p)
    case Some(f) => Failed(f)
    case None =>
      match ResolveZone(p, aws)
      case None => Failed(ZoneNotFound(ZoneIn(p)))
      case Some(zoneId) => OutcomeInZone(p, aws, submit, zoneId)
  }

  /** How the run ends once the zone is known: lines 549-639. */
  function OutcomeInZone(p: Params, aws: Provider, submit: SubmitResult, zoneId: string): (r: Outcome)
    // building the record set comes before the `get` report and the decision
    ensures DesiredRecordSet(p, RecordIn(p), ValuesIn(p)).Err? ==>
      r == Crashed(DesiredRecordSet(p, RecordIn(p), ValuesIn(p)).error)
    ensures r.Found? ==> CommandOf(p.state) == Get
    ensures r.Changed? || r.Failed? || r == Unchanged ==> CommandOf(p.state) != Get
  {
    var current := CurrentRecord(p, aws, zoneId);
    match DesiredRecordSet(p, RecordIn(p), ValuesIn(p))
    case Err(c) => Crashed(c)
    case Ok(desired) =>
      if CommandOf(p.state) == Get then
        GetOutcome(p.rtype, current, aws.zoneNameOf(zoneId), aws.recordSetsOf(zoneId))
      else
        Decide(CommandOf(p.state), desired, current, p.overwrite, submit)
  }

  /** Lines 577-639 of `main`: from the desired and the existing record set to the end of the run. */
  method Reconcile(commandIn: Command, desired: RecordSet, current: Option<RecordSet>, rtype: RecordType,
                   overwrite: Option<bool>, zoneName: string, sets: seq<RecordSet>, submit: SubmitResult)
    returns (o: Outcome)
    ensures commandIn == Get ==> o == GetOutcome(rtype, current, zoneName, sets)
    ensures commandIn != Get ==> o == Decide(commandIn, desired, current, overwrite, submit)
  {
    if commandIn == Create && current == Some(desired) {
      return Unchanged;
    }
    if commandIn == Get {
      var ns: seq<string>;
      if rtype == NS {
        if current.None? {
          return Crashed(NsGetWithoutRecord);
        }
        ns := [];
      } else {
        var found := Nameservers(zoneName, sets);
        if found.None? {
          return Crashed(NoNameserverRecord);
        }
        ns := found.value;
      }
      return Found(current, ns);
    }
    if commandIn == Delete && current.None? {
      return Unchanged;
    }
    var command: Action;
    if commandIn == Create && current.Some? {
      if !IsTrue(overwrite) {
        return Failed(RecordExists);
      }
      command := UPSERT;
    } else {
      command := if commandIn == Create then CREATE else DELETE;
    }

    match submit {
      case Accepted =>
      case AlreadyExists => return Unchanged;
      case WaiterError => return Failed(WaitTimeout);
      case ProviderError => return Failed(UpdateFailed);
      case OtherError => return Failed(UnhandledException);
    }
    return Changed(command, current, desired);
  }

  /** Lower-cases a name, then appends '.' when it does not end in one. */
  method QualifyName(name: string) returns (r: string)
    ensures r == NormalizeName(name)
  {
    r := ToLower(name);
    if !EndsWithDot(r) {
      r := r + ".";
    }
  }

  /** Lines 526-530 of `main`: the checks made before any call to the provider. */
  method CheckArguments(p: Params, commandIn: Command, valueIn: seq<string>) returns (f: Option<Failure>)
    requires commandIn == CommandOf(p.state) && valueIn == ValuesIn(p)
    ensures f == Validate(p)
  {
    if commandIn == Create || commandIn == Delete {
      if IsTrue(p.alias) && |valueIn| != 1 {
        return Some(AliasNeedsSingleValue);
      }
      if p.weight.None? && p.region.None? && p.failover.None? && p.identifier.Some? {
        return Some(IdentifierWithoutPolicy);
      }
    }
    return None;
  }

  /** Lines 549-639 of `main`, once the zone is known. */
  method RunInZone(p: Params, aws: Provider, submit: SubmitResult, zoneId: string,
                   commandIn: Command, recordIn: string, valueIn: seq<string>) returns (o: Outcome)
    requires commandIn == CommandOf(p.state) && recordIn == RecordIn(p) && valueIn == ValuesIn(p)
    ensures o == OutcomeInZone(p, aws, submit, zoneId)
  {
    var awsRecord := GetRecord(aws.recordSetsOf(zoneId), recordIn, p.rtype, p.identifier);
    var built := BuildRecordSet(p, recordIn, valueIn);
    if built.Err? {
      return Crashed(built.error);
    }
    var recordSet := built.value;
    o := Reconcile(commandIn, recordSet, awsRecord, p.rtype, p.overwrite, aws.zoneNameOf(zoneId), aws.recordSetsOf(zoneId), submit);
  }

  /** `main`, statement by statement. */
  method RunModule(p: Params, aws: Provider, submit: SubmitResult) returns (o: Outcome)
    ensures o == ModuleOutcome(p, aws, submit)
  {
    var commandIn := CommandOf(p.state);
    var zoneIn := QualifyName(if p.zone.Some? then p.zone.value else "");
    var recordIn := QualifyName(p.record);
    var valueIn := if p.value.Some? then p.value.value else [];
    var privateZoneIn := p.privateZone;
    if p.vpcId.Some? {
      privateZoneIn := true;
    }
    assert zoneIn == ZoneIn(p) && recordIn == RecordIn(p);
    assert valueIn == ValuesIn(p) && privateZoneIn == PrivateZoneIn(p);
    var failure := CheckArguments(p, commandIn, valueIn);
    if failure.Some? {
      return Failed(failure.value);
    }

    var zoneId: Option<string>;
    if Truthy(p.hostedZoneId) {
      zoneId := p.hostedZoneId;
    } else {
      zoneId := GetZoneIdByName(aws.hostedZones, aws.vpcsOf, zoneIn, privateZoneIn, p.vpcId);
    }
    assert zoneId == ResolveZone(p, aws);
    if zoneId.None? {
      return Failed(ZoneNotFound(zoneIn));
    }
    o := RunInZone(p, aws, submit, zoneId.value, commandIn, recordIn, valueIn);
  }

  // ------------------------------------------------------------ properties

  /** For create and delete the alias and identifier checks fail the run whatever the provider holds. */
  lemma ValidationPrecedesLookup(p: Params, aws: Provider, submit: SubmitResult)
    ensures CommandOf(p.state) != Get && IsTrue(p.alias) && |ValuesIn(p)| != 1 ==>
      ModuleOutcome(p, aws, submit) == Failed(AliasNeedsSingleValue)
    ensures (&& CommandOf(p.state) != Get && !(IsTrue(p.alias) && |ValuesIn(p)| != 1)
             && p.weight.None? && p.region.None? && p.failover.None? && p.identifier.Some?) ==>
      ModuleOutcome(p, aws, submit) == Failed(IdentifierWithoutPolicy)
    ensures CommandOf(p.state) == Get ==> Validate(p).None?
  {
  }

  /** The zone the run uses satisfies the query: name, privacy (forced by a VPC id) and VPC membership. */
  lemma ResolvedZoneQualifies(p: Params, aws: Provider, zoneId: string)
    requires !Truthy(p.hostedZoneId)
    requires ResolveZone(p, aws) == Some(zoneId)
    ensures exists i ::
      && 0 <= i < |aws.hostedZones| && ZoneId(aws.hostedZones[i]) == zoneId
      && aws.hostedZones[i].name == ZoneIn(p)
      && (p.vpcId.Some? ==> IsPrivate(aws.hostedZones[i]))
      && (Truthy(p.vpcId) ==> p.vpcId.value in aws.vpcsOf(zoneId))
  {
    var zones := aws.hostedZones;
    var i :| FirstZoneAt(zones, ZoneIn(p), PrivateZoneIn(p), p.vpcId, aws.vpcsOf, i) && zoneId == ZoneId(zones[i]);
    assert ZoneMatches(zones[i], ZoneIn(p), PrivateZoneIn(p), p.vpcId, aws.vpcsOf);
  }

  /**
   * A private zone is looked up with a VPC id that none of the private zones
   * of that name is associated with: the zone is not found, even when a
   * public zone of that name exists.
   */
  lemma VpcMismatchIsZoneNotFound(p: Params, aws: Provider, submit: SubmitResult)
    requires Validate(p).None? && !Truthy(p.hostedZoneId) && Truthy(p.vpcId)
    requires forall z :: z in aws.hostedZones && IsPrivate(z) && z.name == ZoneIn(p) ==> p.vpcId.value !in aws.vpcsOf(ZoneId(z))
    ensures ModuleOutcome(p, aws, submit) == Failed(ZoneNotFound(ZoneIn(p)))
  {
    var zones := aws.hostedZones;
    forall i | 0 <= i < |zones| ensures !ZoneMatches(zones[i], ZoneIn(p), PrivateZoneIn(p), p.vpcId, aws.vpcsOf) {
      assert zones[i] in zones;
    }
  }

  /** The decision table of lines 577-598, once the zone is known and the record set is built. */
  lemma DecisionTable(p: Params, aws: Provider, submit: SubmitResult, zoneId: string, desired: RecordSet)
    requires Validate(p).None?
    requires ResolveZone(p, aws) == Some(zoneId)
    requires DesiredRecordSet(p, RecordIn(p), ValuesIn(p)) == Ok(desired)
    // create, and the existing record set equals the desired one: nothing is submitted
    ensures CommandOf(p.state) == Create && CurrentRecord(p, aws, zoneId) == Some(desired) ==>
      ModuleOutcome(p, aws, submit) == Unchanged
    // delete, and no record set exists: nothing is submitted
    ensures CommandOf(p.state) == Delete && CurrentRecord(p, aws, zoneId).None? ==>
      ModuleOutcome(p, aws, submit) == Unchanged
    // create over a differing record set without overwrite: refused
    ensures (&& CommandOf(p.state) == Create && CurrentRecord(p, aws, zoneId).Some?
             && CurrentRecord(p, aws, zoneId) != Some(desired) && !IsTrue(p.overwrite)) ==>
      ModuleOutcome(p, aws, submit) == Failed(RecordExists)
    // create over a differing record set with overwrite: UPSERT
    ensures (&& CommandOf(p.state) == Create && CurrentRecord(p, aws, zoneId).Some?
             && CurrentRecord(p, aws, zoneId) != Some(desired) && IsTrue(p.overwrite)) ==>
      ModuleOutcome(p, aws, submit) == Submitted(UPSERT, CurrentRecord(p, aws, zoneId), desired, submit)
    // create with no record set: CREATE
    ensures CommandOf(p.state) == Create && CurrentRecord(p, aws, zoneId).None? ==>
      ModuleOutcome(p, aws, submit) == Submitted(CREATE, None, desired, submit)
    // delete of an existing record set: DELETE, equal to the desired one or not
    ensures CommandOf(p.state) == Delete && CurrentRecord(p, aws, zoneId).Some? ==>
      ModuleOutcome(p, aws, submit) == Submitted(DELETE, CurrentRecord(p, aws, zoneId), desired, submit)
  {
  }

  /** A reported change carries the record set found as `before` and the built one as `after`, for DELETE too. */
  lemma ChangeReportsDesiredRecordSet(p: Params, aws: Provider, submit: SubmitResult)
    requires ModuleOutcome(p, aws, submit).Changed?
    ensures submit == Accepted && CommandOf(p.state) != Get && Validate(p).None?
    ensures ResolveZone(p, aws).Some? && BuildSucceeds(p, ValuesIn(p))
    ensures ModuleOutcome(p, aws, submit).after == DesiredRecordSet(p, RecordIn(p), ValuesIn(p)).value
    ensures ModuleOutcome(p, aws, submit).before == CurrentRecord(p, aws, ResolveZone(p, aws).value)
    ensures ModuleOutcome(p, aws, submit).action == DELETE <==> CommandOf(p.state) == Delete
  {
  }

  /**
   * The built record set has no SetIdentifier, while any record set found
   * for a truthy identifier has one: a create with an identifier is never
   * found already in place.
   */
  lemma IdentifierPreventsNoOp(p: Params, aws: Provider, submit: SubmitResult)
    requires CommandOf(p.state) == Create && Truthy(p.identifier) && submit != AlreadyExists
    ensures ModuleOutcome(p, aws, submit) != Unchanged
  {
    if Validate(p).None? && ResolveZone(p, aws).Some? && BuildSucceeds(p, ValuesIn(p)) {
      var current := CurrentRecord(p, aws, ResolveZone(p, aws).value);
      if current.Some? {
        assert current.value.setIdentifier == p.identifier;
      }
    }
  }

  /** `sets` with `rs` listed at position `k` (at the end when `k` is past it). */
  function InsertRecordSet(sets: seq<RecordSet>, k: nat, rs: RecordSet): (r: seq<RecordSet>)
    ensures multiset(r) == multiset(sets) + multiset{rs}
  {
    if k <= |sets| then
      assert sets == sets[..k] + sets[k..];
      sets[..k] + [rs] + sets[k..]
    else sets + [rs]
  }

  /** The provider once a CREATE of `rs` in zone `zoneId` has been applied. */
  function Applied(aws: Provider, zoneId: string, k: nat, rs: RecordSet): Provider {
    aws.(recordSetsOf := z => if z == zoneId then InsertRecordSet(aws.recordSetsOf(z), k, rs) else aws.recordSetsOf(z))
  }

  /**
   * Idempotence: once the CREATE a run chose has been applied, wherever the
   * provider lists the new record set, running the module again with the
   * same parameters changes nothing (without an identifier).
   */
  lemma RerunAfterCreateIsNoOp(p: Params, aws: Provider, zoneId: string, desired: RecordSet, k: nat, submit: SubmitResult)
    requires ResolveZone(p, aws) == Some(zoneId)
    requires ModuleOutcome(p, aws, Accepted) == Changed(CREATE, None, desired)
    requires !Truthy(p.identifier)
    ensures ModuleOutcome(p, Applied(aws, zoneId, k, desired), submit) == Unchanged
  {
    var after := Applied(aws, zoneId, k, desired);
    assert ResolveZone(p, after) == Some(zoneId);
    var sets := aws.recordSetsOf(zoneId);
    var sets' := after.recordSetsOf(zoneId);
    assert CurrentRecord(p, aws, zoneId).None?;
    assert DesiredRecordSet(p, RecordIn(p), ValuesIn(p)) == Ok(desired);
    assert RecordMatches(desired, RecordIn(p), p.rtype, p.identifier);
    var at := if k <= |sets| then k else |sets|;
    assert sets' == sets[..at] + [desired] + sets[at..];
    forall j | 0 <= j < at ensures !RecordMatches(sets'[j], RecordIn(p), p.rtype, p.identifier) {
      assert sets'[j] == sets[j];
    }
    assert FirstRecordAt(sets', RecordIn(p), p.rtype, p.identifier, at);
    assert CurrentRecord(p, after, zoneId) == Some(desired);
  }

  /** For CAA the order of the values given changes nothing in the run. */
  lemma CaaValueOrderIrrelevantToRun(p: Params, aws: Provider, submit: SubmitResult, v1: seq<string>, v2: seq<string>)
    requires p.rtype == CAA
    requires multiset(v1) == multiset(v2)
    ensures ModuleOutcome(p.(value := Some(v1)), aws, submit) == ModuleOutcome(p.(value := Some(v2)), aws, submit)
  {
    var p1, p2 := p.(value := Some(v1)), p.(value := Some(v2));
    assert |v1| == |multiset(v1)| == |multiset(v2)| == |v2|;
    assert Validate(p1) == Validate(p2);
    assert ResolveZone(p1, aws) == ResolveZone(p2, aws);
    assert RecordIn(p1) == RecordIn(p2) == RecordIn(p);
    CaaValueOrderIrrelevant(p1, RecordIn(p), v1, v2);
    SameBuildApartFromValue(p1, p2, RecordIn(p), v2);
  }

  lemma SameBuildApartFromValue(p1: Params, p2: Params, recordIn: string, valueIn: seq<string>)
    requires p1.(value := None) == p2.(value := None)
    ensures DesiredRecordSet(p1, recordIn, valueIn) == DesiredRecordSet(p2, recordIn, valueIn)
  {
    assert p1.alias == p2.alias && p1.rtype == p2.rtype;
    assert ScrubbedRecordSet(p1, recordIn, valueIn) == ScrubbedRecordSet(p2, recordIn, valueIn);
  }

  /** `get` only reads: it never submits a change, and its end does not depend on a submission. */
  lemma GetIsReadOnly(p: Params, aws: Provider, s1: SubmitResult, s2: SubmitResult)
    requires CommandOf(p.state) == Get
    ensures ModuleOutcome(p, aws, s1) == ModuleOutcome(p, aws, s2)
    ensures !ModuleOutcome(p, aws, s1).Changed? && !ModuleOutcome(p, aws, s1).Unchanged?
    ensures ModuleOutcome(p, aws, s1).Failed? ==> ModuleOutcome(p, aws, s1).failure.ZoneNotFound?
  {
  }

  /**
   * The `get` report: the record set found, with the zone's name servers;
   * for an NS query the list is always empty and a missing record crashes.
   */
  lemma GetReport(p: Params, aws: Provider, submit: SubmitResult, zoneId: string)
    requires CommandOf(p.state) == Get
    requires ResolveZone(p, aws) == Some(zoneId)
    requires BuildSucceeds(p, ValuesIn(p))
    ensures p.rtype == NS ==>
      ModuleOutcome(p, aws, submit) ==
        if CurrentRecord(p, aws, zoneId).None? then Crashed(NsGetWithoutRecord) else Found(CurrentRecord(p, aws, zoneId), [])
    ensures p.rtype != NS ==>
      ModuleOutcome(p, aws, submit) ==
        match Nameservers(aws.zoneNameOf(zoneId), aws.recordSetsOf(zoneId))
        case None => Crashed(NoNameserverRecord)
        case Some(ns) => Found(CurrentRecord(p, aws, zoneId), ns)
  {
  }
}
