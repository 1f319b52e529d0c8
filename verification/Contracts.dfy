/** Provider-neutral vocabulary shared by the agent modules (src/overseer/agent_contracts.py).
    Identifiers are natural numbers; optional identifiers are `None` when absent. */
module Contracts {

  type Id = nat

  datatype Option<+T> = None | Some(value: T) {
    predicate IsFailure() { None? }
    function PropagateFailure<U>(): Option<U> requires None? { None }
    function Extract(): T requires Some? { value }
  }

  datatype OperationState =
    | Queued | Acknowledged | Running | Succeeded
    | OpFailed | OpBlocked | Cancelled | Quarantined

  /** `_ACKNOWLEDGED_STATES` and `_DISPATCHABLE_STATES` are the same set. */
  predicate IsAcknowledged(s: OperationState) {
    s == Acknowledged || s == Running || s == Succeeded
  }

  /** Session ids are either chosen elsewhere or derived from provider and epoch ordinal. */
  datatype SessionId = Named(name: Id) | Derived(provider: Id, ordinal: nat)

  datatype Capability =
    | SessionDiscovery | SessionResume | InteractiveDispatch | NoninteractiveDispatch
    | StructuredEvents | Checkpoints | Cancellation | DelegatedWorkers
    | UsageObservation | HandoffImport

  type Capabilities = set<Capability>

  /** `AgentCapabilities.supports`: everything required is available. */
  predicate Supports(available: Capabilities, required: Capabilities) {
    required <= available
  }

  predicate Distinct<T(==)>(s: seq<T>) {
    forall i, j :: 0 <= i < j < |s| ==> s[i] != s[j]
  }
}
