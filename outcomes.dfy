/** How a run of the module ends: `exit_json`, `fail_json`, or an exception it does not catch. */
module Outcomes {
  import opened Wrappers
  import opened RecordSets

  /** The `fail_json` messages. */
  datatype Failure =
    | AliasNeedsSingleValue       // an alias needs exactly one value
    | IdentifierWithoutPolicy     // identifier without weight, region or failover
    | ZoneNotFound(zone: string)  // no hosted zone qualifies
    | RecordExists                // a differing record exists and overwrite is not set
    | WaitTimeout                 // the propagation waiter gave up
    | UpdateFailed                // the provider rejected the change
    | UnhandledException          // any other exception during submission

  /** Exceptions the module does not catch. */
  datatype Crash =
    | AliasValueMissing     // IndexError: an alias with no value
    | CaaAliasRecords       // KeyError: a CAA alias has no ResourceRecords to sort
    | NsGetWithoutRecord    // AttributeError: `get` of an NS record that does not exist
    | NoNameserverRecord    // IndexError/KeyError: the zone has no usable NS record

  /** The `Action` of the submitted change. */
  datatype Action = CREATE | UPSERT | DELETE

  /** What submitting the change (and waiting, when asked) came to. */
  datatype SubmitResult =
    | Accepted          // submitted (or check mode) and, when asked, in sync
    | AlreadyExists     // the provider answered "but it already exists"
    | WaiterError       // the waiter timed out
    | ProviderError     // BotoCoreError or ClientError
    | OtherError        // any other exception

  datatype Outcome =
    | Unchanged                                                      // exit_json(changed=False)
    | Found(recordSet: Option<RecordSet>, nameservers: seq<string>)        // the `get` report
    | Changed(action: Action, before: Option<RecordSet>, after: RecordSet)  // changed=True with its diff
    | Failed(failure: Failure)
    | Crashed(crash: Crash)
}
