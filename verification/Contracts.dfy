/** Vocabulary shared by the Channel Provider modules: device references, their
    generations, output policies and the domain errors an operation can end in. */
module Contracts {

  datatype Option<+T> = None | Some(value: T)

  /** The stable domain problems of contracts.py, plus the five outcomes that are not among
      them: the request to retire a reservation first, a violated database constraint, a
      checkpoint the database did not take, a scrubbed handle read as JSON, and an adapter
      that is no longer configured. */
  datatype DomainError =
    | IdempotencyConflict
    | StaleGeneration
    | InvalidTransition
    | UnknownChannel
    | Forbidden
    | BackendUnavailable
    | TransportTransitionRequired
    | ConstraintViolated
    | StorageFailed
    | UnreadableHandle
    | NoAdapterAvailable

  datatype Result<+T> = Success(value: T) | Failure(error: DomainError)

  /** Schema CHECK: every generation counter is at least one. */
  type Counter = n: nat | 1 <= n witness 1

  datatype Generation = Generation(ownerDomain: Counter, claim: Counter, trustEpoch: Counter)

  /** Python compares generation triples lexicographically. */
  predicate Older(a: Generation, b: Generation) {
    a.ownerDomain < b.ownerDomain
    || (a.ownerDomain == b.ownerDomain
        && (a.claim < b.claim || (a.claim == b.claim && a.trustEpoch < b.trustEpoch)))
  }

  /** The part of a device reference that survives a change of generation. */
  datatype Identity = Identity(ownerDomain: string, device: string)

  datatype DeviceRef = DeviceRef(identity: Identity, generation: Generation)

  datatype OutputPolicy = OutputPolicy(revision: nat, allowed: string)

  /** A policy, once present, may only be repeated verbatim or given a larger revision. */
  predicate PolicyKept(previous: Option<OutputPolicy>, incoming: Option<OutputPolicy>) {
    previous.None?
    || (incoming.Some?
        && previous.value.revision <= incoming.value.revision
        && (previous.value.revision == incoming.value.revision ==> previous == incoming))
  }

  /** The incoming policy carries a strictly newer revision; none counts as revision zero. */
  predicate PolicyAdvances(previous: Option<OutputPolicy>, incoming: Option<OutputPolicy>) {
    incoming.Some? && incoming.value.revision > (if previous.Some? then previous.value.revision else 0)
  }
}
