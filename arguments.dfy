/**
 * The module's parameters once the Ansible argument spec has applied its
 * defaults (ttl 3600, alias_evaluate_target_health false, private_zone
 * false). `wait`, `wait_timeout` and `retry_interval` only shape the
 * submission and are not part of this model.
 */
module Arguments {
  import opened Wrappers
  import opened RecordSets

  /** `state`, alias `command`. */
  datatype State = StatePresent | StateCreate | StateAbsent | StateDelete | StateGet

  /** `command_in`, after present/absent are folded into create/delete. */
  datatype Command = Create | Delete | Get

  datatype Params = Params(
    state: State,
    zone: Option<string>,
    hostedZoneId: Option<string>,
    record: string,
    ttl: Option<int>,
    rtype: RecordType,
    alias: Option<bool>,
    aliasHostedZoneId: Option<string>,
    aliasEvaluateTargetHealth: bool,
    value: Option<seq<string>>,
    overwrite: Option<bool>,
    privateZone: bool,
    identifier: Option<string>,
    weight: Option<int>,
    region: Option<string>,
    healthCheck: Option<string>,
    failover: Option<Failover>,
    vpcId: Option<string>)

  /** `command_in`: present and create create, absent and delete delete, get reads. */
  function CommandOf(s: State): (c: Command)
    ensures s == StatePresent || s == StateCreate ==> c == Create
    ensures s == StateAbsent || s == StateDelete ==> c == Delete
    ensures s == StateGet ==> c == Get
  {
    match s
    case StatePresent | StateCreate => Create
    case StateAbsent | StateDelete => Delete
    case StateGet => Get
  }

  /** Python truthiness of an optional boolean. */
  predicate IsTrue(b: Option<bool>) {
    b == Some(true)
  }

  /** Python truthiness of an optional string: present and not empty. */
  predicate Truthy(s: Option<string>) {
    s.Some? && s.value != ""
  }

  /** `module.params.get('value') or []` */
  function ValuesIn(p: Params): seq<string> {
    if p.value.Some? then p.value.value else []
  }

  /**
   * What `AnsibleAWSModule` enforces before the module body runs:
   * the `choices` of `type`, `required_one_of`, `required_together`,
   * `required_if`, the mutual exclusion of failover/region/weight and
   * `required_by`.
   */
  predicate ArgumentSpecHolds(p: Params) {
    && !p.rtype.Other?
    && (p.zone.Some? || p.hostedZoneId.Some?)
    && (p.alias.Some? <==> p.aliasHostedZoneId.Some?)
    && (!p.state.StateGet? ==> p.value.Some?)
    && !(p.failover.Some? && p.region.Some?)
    && !(p.failover.Some? && p.weight.Some?)
    && !(p.region.Some? && p.weight.Some?)
    && (p.failover.Some? || p.region.Some? || p.weight.Some? ==> p.identifier.Some?)
  }
}
