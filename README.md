# route53 record management, modelled in Dafny

This project models the core of the `route53` Ansible module
(`plugins/modules/route53.py`). The module creates, deletes and reports one
DNS resource record set in an Amazon Route 53 hosted zone. The model covers:

- the three lookups over what the provider lists:
  - `get_record`: the first record set whose Name and Type match, with the
    SetIdentifier also matching when a truthy identifier is given;
  - `get_zone_id_by_name`: the first hosted zone whose name and privacy
    match, and whose VPCs include the requested VPC when one is given, with
    the `/hostedzone/` prefix removed from its id;
  - `get_hosted_zone_nameservers`: the values of the zone's first NS
    record;
- the body of `main`:
  - the state→command mapping;
  - lower-casing of names and adding the trailing dot;
  - a VPC id forcing the private zone;
  - the alias and identifier checks;
  - choosing the zone;
  - building the desired record set, including the alias rewrite and the
    sorting of CAA values;
  - the decision between no change, refusal, CREATE, UPSERT and DELETE;
  - the `get` report;
  - how the run ends.

Modules:

- `Wrappers`: Option and Result.
- `Names`: ASCII lower-casing and the trailing dot.
- `RecordSets`: the record set and hosted zone as values.
- `Search`: first match in a sequence.
- `CaaOrder`: Python's string order and a sort by `Value`.
- `Lookup`: the three lookups. `get_record` and `get_zone_id_by_name` are
  each a specification function plus a method that loops like the source.
  `get_hosted_zone_nameservers`, a filter and a list comprehension, is the
  function `Nameservers`.
- `Arguments`: the module parameters, Python truthiness and the argument
  spec.
- `Outcomes`: how a run ends.
- `Builder`: the desired record set.
- `Route53`: `main`.

`Route53.ModuleOutcome` is the reference definition of a run.
`Route53.RunModule` follows `main` statement by statement and is proved equal
to it. The lemmas of `Route53` are stated about `ModuleOutcome`.

An exception that the module's own code raises and does not catch becomes an
`Outcome.Crashed` with its cause; the model does not exclude such inputs by
preconditions. Errors raised by the provider during the lookups are not
modelled (see "Left out"). The cases are:

- `value_in[0]` of an alias with no value;
- sorting the ResourceRecords of a CAA alias, which has none;
- `.get` on the missing record of an NS `get`;
- a zone with no usable NS record.

The model follows the code as written in these places:

- The diff's `after` is the built record set for every action, DELETE
  included. Line 637 compares the upper-cased command with `'delete'`, so it
  never chooses `{}`.
- The built record set never has a SetIdentifier. A create with a truthy
  identifier therefore always differs from the record set it finds, and it
  is never a no-op (`Route53.IdentifierPreventsNoOp`).
- With a VPC id, only private zones are candidates. A public zone of the
  requested name is not found (`Route53.VpcMismatchIsZoneNotFound`).
- The identifier check at line 529 uses `is not None`. `get_record` uses
  truthiness (`Lookup.EmptyIdentifierIgnored`).

`Route53.RerunAfterCreateIsNoOp` needs a model of the provider after a
change. It uses `Route53.Applied`: a CREATE of a record set in a zone adds
that record set to the zone's listing, at any position, and changes nothing
else. The module itself does not compute this; it is what the provider is
taken to do.

## Model

| member | source | states |
|---|---|---|
| Arguments.CommandOf | plugins/modules/route53.py:488-493 | present and create become create; absent and delete become delete; get stays get. |
| Search.FirstIndex | plugins/modules/route53.py:391-401 | The index returned is the first position whose element satisfies the predicate. None is returned exactly when no element satisfies it. |
| Lookup.FindRecord | plugins/modules/route53.py:388-401 | None exactly when no record set matches Name and Type (and SetIdentifier for a truthy identifier). Otherwise it is the record set at the first matching position. |
| Lookup.GetRecord | plugins/modules/route53.py:388-401 | The loop over the listed record sets, skipping non-matching names/types and non-matching identifiers, returns exactly `FindRecord`. |
| Lookup.EmptyIdentifierIgnored | plugins/modules/route53.py:396 | An empty identifier selects the same record set as no identifier. |
| Lookup.StripHostedZonePrefix | plugins/modules/route53.py:412 | Removing every `/hostedzone/` shortens the id by a whole number of copies of the prefix. |
| Lookup.StripWithoutSlash | plugins/modules/route53.py:412 | Removing `/hostedzone/` leaves a string without '/' unchanged. |
| Lookup.ZoneIdOfApiId | plugins/modules/route53.py:412 | The API's `/hostedzone/<id>` becomes the bare `<id>`. |
| Lookup.FindZoneId | plugins/modules/route53.py:404-423 | None exactly when no zone matches in privacy, name and VPC membership. Otherwise it is the stripped id of the first matching zone. |
| Lookup.GetZoneIdByName | plugins/modules/route53.py:404-423 | The loop over the zones, with its privacy/name check and per-zone VPC lookup, returns exactly `FindZoneId`. |
| Lookup.Nameservers | plugins/modules/route53.py:426-434 | With no NS record named after the zone there is no result (the exception case). Otherwise the result is the values, in order, of the first such record. |
| RecordSets.ValueListRoundTrip | plugins/modules/route53.py:558 | Reading the values back from the ResourceRecords built from a value list gives that list. |
| RecordSets.ResourceRecordsPermutation | plugins/modules/route53.py:558 | Permuted value lists give permuted ResourceRecords lists. |
| Names.NormalizeName | plugins/modules/route53.py:495-524 | The normalised name is lower-case and ends in '.'. It is the lowered input with '.' appended exactly when the input does not already end in one. |
| Names.NormalizeNameIdempotent | plugins/modules/route53.py:520-524 | Normalising an already normalised name changes nothing. |
| Route53.QualifyName | plugins/modules/route53.py:495-524 | Lowering and then appending a missing dot, step by step, gives `NormalizeName`. |
| CaaOrder.LexLeqTotal | plugins/modules/route53.py:575 | Python's string order compares any two values. |
| CaaOrder.LexLeqAntisymmetric | plugins/modules/route53.py:575 | Two strings each ordered before the other are equal. |
| CaaOrder.LexLeqTransitive | plugins/modules/route53.py:575 | Python's string order is transitive. |
| CaaOrder.SortByValue | plugins/modules/route53.py:575 | The sorted ResourceRecords are ordered by Value and are a permutation of the input. |
| CaaOrder.SortedUnique | plugins/modules/route53.py:573-575 | Two Value-sorted lists that are permutations of each other are equal. |
| CaaOrder.SortByValueCanonical | plugins/modules/route53.py:573-575 | Sorting permuted ResourceRecords lists gives the same list. |
| Builder.ScrubbedRecordSet | plugins/modules/route53.py:551-560 | The dict after the scrub has Name, Type, Weight, Region, Failover, TTL and HealthCheckId from the parameters, with an absent parameter giving an absent key. It has no SetIdentifier and no AliasTarget. ResourceRecords is always present, and its Values read back as the given value list. |
| Builder.DesiredRecordSet | plugins/modules/route53.py:551-575 | Building succeeds exactly unless it is an alias with no value (IndexError) or a CAA alias (KeyError). Name, Type, Weight, Region, Failover and HealthCheckId are the parameters, and there is no SetIdentifier. An alias has `AliasTarget(alias_hosted_zone_id, value[0], evaluate)` and no TTL or ResourceRecords. Any other record has no AliasTarget, has the TTL, and has all its values: in order, or sorted by Value for CAA. |
| Builder.BuildRecordSet | plugins/modules/route53.py:551-575 | Building the dict, applying the alias rewrite and sorting CAA, step by step, gives `DesiredRecordSet`. |
| Builder.CaaValueOrderIrrelevant | plugins/modules/route53.py:573-575 | For CAA, value lists that are permutations of each other build the same record set. |
| Builder.AliasTargetComplete | plugins/modules/route53.py:562-567 | Under the argument spec (alias requires alias_hosted_zone_id), a built AliasTarget always has a HostedZoneId. |
| Route53.PrivateZoneIn | plugins/modules/route53.py:506-509 | Any VPC id, even an empty one, asks for a private zone. Without one, `private_zone` decides. |
| Route53.Validate | plugins/modules/route53.py:526-530 | `get` is never checked. For create and delete, an alias without exactly one value fails first, then an identifier with no weight, region or failover. Nothing else fails. |
| Route53.CheckArguments | plugins/modules/route53.py:526-530 | The two checks, step by step, give `Validate`. |
| Route53.ResolveZone | plugins/modules/route53.py:542 | A truthy `hosted_zone_id` is used as given. Otherwise the zone is looked up by name, and there is none exactly when no zone matches name, privacy and VPC. |
| Route53.GetOutcome | plugins/modules/route53.py:580-587 | The `get` report is always a report or a crash, and reports the record set found. For NS the name-server list is empty, and it crashes exactly when no record was found. For other types the list is the zone's name servers, and it crashes exactly when they cannot be read. |
| Route53.Submitted | plugins/modules/route53.py:600-639 | The change is reported exactly when the submission is accepted, with the given action, the found record set as `before` and the built one as `after`. "Already exists" ends with no change. A waiter timeout, a provider error and any other exception each fail the run. |
| Route53.Decide | plugins/modules/route53.py:577-598 | A create whose record set is already in place, or a delete with nothing to delete, changes nothing. A create over a differing record set without overwrite is refused, and only then. A reported change was accepted and reports the found and the built record sets. Its action is DELETE exactly for delete, and for create it is UPSERT when a record set exists and CREATE otherwise. |
| Route53.OutcomeInZone | plugins/modules/route53.py:549-639 | Once the zone is known, a failed build crashes before anything else. Only `get` reports, and only create and delete change, refuse or end with no change. |
| Route53.RunInZone | plugins/modules/route53.py:549-639 | Fetching the record, building the record set and reconciling, step by step, give `OutcomeInZone`. |
| Route53.ModuleOutcome | plugins/modules/route53.py:488-639 | A failed check ends the run with that failure. Otherwise a zone that cannot be resolved ends it with "zone not found". Only `get` reports, and only after a zone is resolved. A change needs create or delete and an accepted submission. `get` never changes anything and never ends with a plain "no change". |
| Route53.Reconcile | plugins/modules/route53.py:577-639 | For `get`, the end is the `get` report. Otherwise it is the no-op/refusal/CREATE/UPSERT/DELETE decision, with the submission's result. |
| Route53.RunModule | plugins/modules/route53.py:488-639 | `main`, statement by statement, ends exactly as `ModuleOutcome` says. |
| Route53.ValidationPrecedesLookup | plugins/modules/route53.py:526-530 | For create and delete, an alias without exactly one value, or an identifier with no weight, region or failover, fails the run whatever the provider holds. `get` is never validated. |
| Route53.ResolvedZoneQualifies | plugins/modules/route53.py:506-542 | A zone found by name has the normalised name. With a VPC id it is private, and it is associated with that VPC when the VPC id is truthy. |
| Route53.VpcMismatchIsZoneNotFound | plugins/modules/route53.py:542-547 | If no private zone of that name is associated with the given VPC, the run fails with "zone not found", whatever public zones exist. |
| Route53.DecisionTable | plugins/modules/route53.py:577-598 | The decision is one of six outcomes:<br>- create with an equal record set: no change;<br>- delete with no record set: no change;<br>- create over a differing record set without overwrite: refused;<br>- the same with overwrite: UPSERT;<br>- create with no record set: CREATE;<br>- delete of an existing record set: DELETE. |
| Route53.ChangeReportsDesiredRecordSet | plugins/modules/route53.py:600-639 | A reported change means the submission was accepted for create or delete. Its diff has the found record set as `before` and the built record set as `after`, DELETE included. Its action is DELETE exactly for delete. |
| Route53.IdentifierPreventsNoOp | plugins/modules/route53.py:549-578 | A create with a truthy identifier never ends as "no change" unless the provider reports that the record already exists. |
| Route53.RerunAfterCreateIsNoOp | plugins/modules/route53.py:577-578 | After the CREATE a run chose is applied, re-running with the same parameters (no identifier) is a no-op. This holds wherever the provider lists the new record set. |
| Route53.CaaValueOrderIrrelevantToRun | plugins/modules/route53.py:573-577 | For CAA, permuting the given values does not change how the run ends. |
| Route53.GetIsReadOnly | plugins/modules/route53.py:580-587 | `get` never submits a change: its end does not depend on the submission, is never a change, and can fail only with "zone not found". |
| Route53.GetReport | plugins/modules/route53.py:580-587 | For NS, the report is the record set found with an empty name-server list, and a missing record crashes. For other types, the run ends `Found(record set found, ns)` when the zone's name servers are `ns`, and crashes when there are none. |

## Left out

- The boto3 client, its creation, retries with jittered backoff and
  pagination (lines 376-385, 533-539). Each listing is a given sequence, and
  `get_hosted_zone` is a total function from zone id to VPCs and zone name.
- The submission of the change and the waiter (lines 600-631). The outcome
  of submitting is an abstract `SubmitResult` parameter:
  - accepted;
  - "already exists";
  - waiter timeout;
  - provider error;
  - any other exception.

  The change batch, `wait`, `wait_timeout`, `retry_interval` and the
  waiter's `MaxAttemps` are not modelled.
- Check mode: it skips the submission, which is the `Accepted` case.
- Enforcement of the argument spec (lines 438-486) by Ansible. It is stated
  as `Arguments.ArgumentSpecHolds`, used as a hypothesis where a property
  needs it. The `alias`/`ttl` mutual exclusion is not in it: `ttl` has a
  default value.
- Ansible's conversion of strings to booleans and integers: parameters come
  already typed.
- Unicode case mapping: `lower()` is modelled for ASCII letters only.
- The messages of `fail_json` and the exceptions. Failures and crashes are
  named by their cause.
- Fields of a provider record set that the module never writes (for example
  GeoLocation or MultiValueAnswer). A listed record set with such a field
  would compare unequal in the source. Here it compares on the fields the
  model carries.
- Names with Route 53 escapes (such as `\052` for `*`). Names are compared
  as given.
- Errors raised by the provider outside the submission are not modelled. These are
  `list_resource_record_sets` (lines 389 and 428), `list_hosted_zones`
  (line 406) and `get_hosted_zone` (lines 418 and 427). Each listing is a
  total function of the zone id. So a truthy `hosted_zone_id` that names no
  zone reads as an empty zone, where the source stops with the provider's
  error in `get_record`.
- Route53.GetReport: it does not state the result when `get` crashes on
  building an alias record set, because `Builder.DesiredRecordSet` already
  states that crash.
