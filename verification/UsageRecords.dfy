/** The records usage accounting works on, and the ones it builds for provisioned
    slots. */
module UsageRecords {
  import opened Options
  import opened Windows

  type Id = string

  const UNALLOCATED: Id := "Unallocated"
  const UNKNOWN: Id := "Unknown"
  const UNRESOLVED: Id := "unresolved"

  datatype Kind = Attempt | Capacity
  datatype Pricing = PerGib | PerDeviceMonth
  datatype Outcome = Success | HttpError | Retry | Failure
  datatype SessionMode = Managed | Stateless
  datatype SlotHealth = Healthy | Unhealthy

  datatype Record = Record(
    kind: Kind,
    logicalOperationId: Id,
    jobId: Option<Id>,
    sessionMode: Option<SessionMode>,
    routeId: Id,
    userId: Id,
    customerId: Id,
    provider: Id,
    outcome: Outcome,
    bytesSent: nat,
    bytesReceived: nat,
    destinationDomain: Option<Id>,
    destinationHost: Option<Id>,
    destinationPathTemplate: Option<Id>,
    country: Option<Id>,
    city: Option<Id>,
    proxySlotId: Option<Id>,
    connectionStartedAt: Option<int>,
    connectionEndedAt: Option<int>,
    pricingModel: Option<Pricing>,
    priceUsd: Option<real>,
    capacityState: SlotHealth,
    startedAt: int,
    completedAt: int)

  datatype GroupBy =
    | ByProvider | ByCustomer | ByUser | ByRoute | ByJob | BySessionMode
    | ByDestinationDomain | ByDestinationHost | ByDestinationPathTemplate
    | ByCountry | ByCity | ByOutcome

  function OrElse(value: Option<Id>, default: Id): Id {
    if value.Some? then value.value else default
  }

  function GroupValue(r: Record, groupBy: GroupBy): Id {
    match groupBy
    case ByProvider => r.provider
    case ByCustomer => r.customerId
    case ByUser => r.userId
    case ByRoute => r.routeId
    case ByJob => OrElse(r.jobId, UNALLOCATED)
    case BySessionMode =>
      if r.sessionMode.None? then UNALLOCATED else if r.sessionMode.value == Managed then "managed" else "stateless"
    case ByDestinationDomain => OrElse(r.destinationDomain, UNKNOWN)
    case ByDestinationHost => OrElse(r.destinationHost, UNKNOWN)
    case ByDestinationPathTemplate => OrElse(r.destinationPathTemplate, UNKNOWN)
    case ByCountry => OrElse(r.country, UNKNOWN)
    case ByCity => OrElse(r.city, UNKNOWN)
    case ByOutcome =>
      match r.outcome
      case Success => "success"
      case HttpError => "http_error"
      case Retry => "retry"
      case Failure => "failure"
  }

  datatype SlotCapacity = SlotCapacity(
    provider: Id, id: Id, proxySlotId: Id, periodStartedAt: int, periodEndsAt: int, priceUsd: real,
    country: Option<Id>, city: Option<Id>, health: Option<SlotHealth>)

  /** What accounting may rely on about a capacity record. */
  predicate AsBuilt(r: Record) {
    r.kind == Capacity ==>
      && r.customerId == UNALLOCATED
      && r.pricingModel == Some(PerDeviceMonth)
      && r.proxySlotId.Some?
      && r.priceUsd.Some? && 0.0 <= r.priceUsd.value
      && r.startedAt < r.completedAt
  }

  /** The record for a provisioned slot, or nothing where the source throws. */
  function CapacityRecord(c: SlotCapacity): (r: Option<Record>)
    ensures r.Some? <==> c.periodStartedAt < c.periodEndsAt && 0.0 <= c.priceUsd
    ensures r.Some? ==> AsBuilt(r.value)
    ensures r.Some? ==>
      && r.value.kind == Capacity && r.value.provider == c.provider && r.value.proxySlotId == Some(c.proxySlotId)
      && r.value.startedAt == c.periodStartedAt && r.value.completedAt == c.periodEndsAt
        && r.value.priceUsd == Some(c.priceUsd)
      && r.value.country.Some? && (c.country.Some? ==> r.value.country == c.country) && r.value.city == c.city
      && (r.value.capacityState == Unhealthy <==> c.health == Some(Unhealthy))
  {
    if c.periodStartedAt >= c.periodEndsAt || c.priceUsd < 0.0 then None
    else Some(Record(
      Capacity, "capacity:" + c.id, None, None, UNALLOCATED, UNALLOCATED, UNALLOCATED, c.provider, Success, 0, 0,
      None, None, None, Some(OrElse(c.country, "US")), c.city, Some(c.proxySlotId), None, None,
      Some(PerDeviceMonth), Some(c.priceUsd), if c.health == Some(Unhealthy) then Unhealthy else Healthy,
      c.periodStartedAt, c.periodEndsAt))
  }

  /** An attempt of one GiB that completed at the epoch, priced per GiB or not at all. */
  function GibAttempt(customer: Id, provider: Id, priceUsd: Option<real>): Record {
    Record(
      Attempt, "operation", None, None, "route", "user", customer, provider, Success, 1_073_741_824, 0,
      None, None, None, None, None, None, None, None,
      if priceUsd.Some? then Some(PerGib) else None, priceUsd, Healthy, 0, 0)
  }

  /** The connection a slot carried during the period, for an attempt on a slot. */
  function ConnectionWindow(r: Record, period: Window): Option<Window> {
    if r.kind == Attempt && r.proxySlotId.Some?
    then Clipped(r.connectionStartedAt, r.connectionEndedAt, period.start, period.end)
    else None
  }

  /** The part of the period a capacity record provisions a slot for. */
  function CapacityWindow(r: Record, period: Window): Option<Window> {
    if r.kind == Capacity && r.proxySlotId.Some?
    then Clipped(Some(r.startedAt), Some(r.completedAt), period.start, period.end)
    else None
  }

  function Length(w: Option<Window>): int {
    if w.Some? then w.value.end - w.value.start else 0
  }
}
