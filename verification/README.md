# Profound: verified core

Profound is a proxy router. Around its sockets and HTTP servers sit five cores that
decide who may use a route, which provider and slot serves it, what it costs and whether
the service is healthy. This project models those cores in Dafny and proves what they
promise, for every input, every run or every interleaving.

- **Usage accounting** (`Windows`, `Concurrency`, `Periods`, `UsageRecords`, `Estimates`,
  `CostEstimation`, `SlotShares`, `CapacityMetrics`, `Summaries`, `SummaryMeaning`,
  `UsageTotals`, `SpendTotals`, `Reconciliation`, `ReconciledTotals`): sweeps equal their
  pointwise definitions, periods tile the Gregorian calendar, every cost is borne by whom the
  records say, and money is conserved from records to groups, from periods to ranges and from
  reported totals to customers.
- **Shared state** (`CapacityCircuit`, `CircuitLock`, `ActiveLoad`, `SessionBinding`):
  step systems with any number of processes, with the in-memory stores as classes.
- **Authorization** (`AuthorizationCache`, `Credentials`, `AuthorizationStore`,
  `Acceptance`): the epoch-invalidated LRU cache over the credential store, from one
  credential's life to exactly who is let in, with which route, and the end-to-end bound on
  how long a revoked credential keeps working.
- **Routing choice** (`Ranking`, `SlotAllocator`): the stitched ranking is one sort; the
  allocator is even.
- **Health alerts, schema pruning, SOCKS5 addresses** (`HealthAlerts`,
  `SchemaReachability`, `Texts`, `Socks5`).

`Options`, `Sorting` and `Sums` hold what the others share. Instants are integers in
milliseconds, money is `real`, the share 0.95 is exactly 19/20, and DynamoDB's composite
keys are tuples. A conditional put or a transaction is one atomic guarded step. Clocks,
store replies, `isIP` and the UTF-8 codec are parameters. `dafny verify dfyconfig.toml`
checks everything.

## Where the code does less than it seems to

Each of these has the exact condition under which the code keeps the property, and an
input or a run in which it does not.

- `unionDuration` starts from an empty stretch at zero, so it measures covered time from
  the epoch on: all of it exactly when no window covers time before the epoch
  (`UnionDurationExact`, `BeforeEpochUncounted`).
- A further failure keeps an open circuit open exactly when it is a hard limit or two
  failures were recorded before it (`OpenStaysOpen`, `SoftFailureCloses`).
- A circuit deleted outside the lock can come back with a wrong count exactly when a
  process stands between its read and a save that will write (`UnlockedDropIsUndone`,
  `UndoneDropRun`).
- A second process enters beside a section exactly when the section has outlived the whole
  seconds of its lease (`LateSectionIsOverrun`, `OverrunRun`).
- A recorded disconnect time survives exactly when no resolver at the session's version and
  no closer that will write holds an older copy (`DisconnectTimeSurvivesIff`, `DisconnectTimeCanBeLost`).
- A second rotation moves a credential's end later exactly when it comes later and during
  an overlap that the expiry did not cap (`SecondRotationExtendsInRun`, `SecondRotationRun`).
- The customers' provider spend adds up to the reported totals of a period, amounts and
  prices not being negative, exactly when every total has somewhere to land (its provider
  has an estimate, or a place in the Unallocated group) and every customer with a part of
  one has as many totals in the period as it has providers (`SpendConservedIff`,
  `TotalCanBeLost`, `PartCanBeLost`). The worker's own booking of variance loses nothing
  (`ReconciledPeriod`).
- With several totals for one provider, that booking attributes the reported totals exactly
  when no provider with an estimate has two for the period (`ReconciledPeriodRepeats`,
  `RepeatedTotal`).
- A stop of an alert evaluation, followed by a complete one, leaves stored keys and standing
  alert as they would be exactly when it had no event to emit, or the status is the same, or
  the event was stored and the next evaluation emits one too (`CrashesChangeNothingIff`,
  `CrashCanLoseEpisode`).
- DynamoDB's endpoint counts cover the in-memory ones exactly when one provider is asked
  for or there is nothing to count (`EndpointCountsAgree`, `EndpointCountsDiffer`).
- A SOCKS5 host name is sent on as the name it came as exactly when it is valid UTF-8 and
  not the text of a numeric address (`AddressReturns`, `NumericNameIsAddress`).

## Model

| member | source | states |
|---|---|---|
| Windows.UnionDuration | src/usage-accounting-core.ts:194-207 | The sort-and-merge sweep returns the number of milliseconds from the epoch on that some window covers, for all windows, overlapping, empty or reversed. |
| Windows.UnionDurationExact | src/usage-accounting-core.ts:194-207 | That is the whole covered time if and only if no non-empty window starts before the epoch. |
| Windows.BeforeEpochUncounted | src/usage-accounting-core.ts:196-198 | A window across the epoch of which one of two milliseconds is counted. |
| Windows.UnionSumPeak | src/usage-accounting-core.ts:194-234 | union <= sum of lengths <= peak x union, for all windows and every bound on the number open at once. |
| Windows.DoubleCount | src/usage-accounting-core.ts:324-327 | Summing lengths window by window equals counting open windows millisecond by millisecond. |
| Windows.Clipped | src/usage-accounting-core.ts:209-219 | The clipped window covers exactly the intersection with the period, and is absent exactly when a bound is missing or the intersection is empty. |
| Windows.MeetsCovered | src/usage-accounting-core.ts:332-340 | The pairwise cuts of connections with healthy windows cover the intersection of what both cover. |
| Windows.HealthyIdle | src/usage-accounting-core.ts:331-341 | Idle time is the number of milliseconds that are healthy and carry no connection; the subtraction never needs its clipping at zero. |
| Concurrency.PeakConcurrency | src/usage-accounting-core.ts:221-234 | The event sweep returns the greatest level over all time, and some time attains it unless it is zero. |
| Concurrency.LevelIsOpen | src/usage-accounting-core.ts:221-234 | For windows that are not reversed, starts minus ends up to t is the number of windows open at t. |
| Concurrency.SweepDurations | src/usage-accounting-core.ts:250-257 | The map built by the sweep holds, for each level, exactly the time spent at it, and only positive times. |
| Concurrency.WholePeriod | src/usage-accounting-core.ts:250-257 | The recorded durations add up to the whole period. |
| Concurrency.ConcurrencyPercentile | src/usage-accounting-core.ts:236-265 | The result is the least level such that the time at or below it reaches the target share. |
| Concurrency.PercentileAtMostPeak | src/usage-accounting-core.ts:344-347 | No percentile exceeds the peak. |
| Periods.Tiling | src/usage-accounting-core.ts:141-158 | For hour, day, week and month, every instant lies in the period that begins at its period start. |
| Periods.TilingUnique | src/usage-accounting-core.ts:141-158 | ... and in no other period of that interval. |
| Periods.BoundariesClosed | src/usage-accounting-core.ts:141-158 | Period starts are fixed points of periodStart, and so is the end of every period. |
| Periods.NextIsNearest | src/usage-accounting-core.ts:151-158 | nextPeriod strictly advances and skips no boundary. |
| Periods.PeriodStartMonotone | src/usage-accounting-core.ts:141-149 | periodStart is monotone. |
| Periods.MonthLength | src/usage-accounting-core.ts:147-156 | Under the Gregorian leap rule every month, before and after 1970, has 28 to 31 days. |
| Periods.MonthOf | src/usage-accounting-core.ts:147-147 | The month found for a day contains that day. |
| Periods.CalendarMonths | src/usage-accounting-core.ts:147-156 | Months from January 1970 on, and before, have 31, 30, 28 or 29 days under the Gregorian leap rule. |
| Periods.CalendarBoundaries | src/usage-accounting-core.ts:141-149 | Hours begin at multiples of 3,600,000 ms, days of 86,400,000, weeks on Mondays, months on the first day of a calendar month, if and only if. |
| Periods.PeriodLengths | src/usage-accounting-core.ts:151-158 | An hour, a day and a week last 3,600,000, 86,400,000 and 604,800,000 ms. |
| UsageRecords.CapacityRecord | src/usage-accounting-core.ts:96-133 | A capacity record is built exactly for a positive period and a price of at least zero; it is on Unallocated, priced per device month, and carries the slot's provider, window, price, place and health. |
| Estimates.SharesAddUp | src/usage-accounting-core.ts:435-446 | The customers' shares of one slot add up to one. |
| Estimates.CustomerEstimatesAddUp | src/usage-accounting-core.ts:394-450 | The customers' estimates of a period add up to the estimate without a customer. |
| Estimates.GroupEstimatesAddUp | src/usage-accounting-core.ts:394-450 | So do the estimates of the groups by every attribute. |
| Estimates.EstimateAppend | src/usage-accounting-core.ts:406-434 | Without a customer, each record adds its own charge, whatever the others are. |
| CostEstimation.AddRecord | src/usage-accounting-core.ts:406-434 | One step of the first pass keeps both maps equal to cost by slot and connection time by slot and customer. |
| CostEstimation.EntriesAreUsers | src/usage-accounting-core.ts:440-441 | The customers with an entry for a slot account for all its connection time. |
| CostEstimation.SlotsAndRecords | src/usage-accounting-core.ts:435-448 | Summing slot by slot over the map equals summing charge by charge over the records. |
| CostEstimation.EstimatedCost | src/usage-accounting-core.ts:394-450 | The two loops over nested maps return the sum of one charge per record and the customer's connection time. |
| SlotShares.ConnectionsAre | src/usage-accounting-core.ts:421-429 | The connection time returned is the sum, over the customer's attempts on slots, of their overlap with the period. |
| SlotShares.EstimateByUse | src/usage-accounting-core.ts:394-450 | Read off the record fields: the amount is the bytes of attempts completed in the period at the price of a GiB, plus each slot's price by twelfths of 365.25 days; a customer's is its own traffic plus its part of each slot by connection time, unused slots on Unallocated. |
| SlotShares.UsersPay | src/usage-accounting-core.ts:435-448 | With all capacity on one slot: what a customer pays beyond traffic, times all connection time, is the slot's cost times its own connection time; an unused slot is on Unallocated alone. |
| SlotShares.MonthOnOneSlot | src/usage-accounting-core.ts:15-15 | A slot held for 2,629,800,000 ms costs its price, all of it borne by the customer connected throughout. |
| CapacityMetrics.WindowsPointwise | src/usage-accounting-core.ts:301-313 | The windows gathered for a slot cover exactly the milliseconds at which a record of that use holds the slot. |
| CapacityMetrics.Gather | src/usage-accounting-core.ts:293-313 | The first loop leaves every slot with its connection, healthy and unhealthy windows. |
| CapacityMetrics.UsesAre | src/usage-accounting-core.ts:301-313 | Connections, healthy and unhealthy slots are what kind, state and times of the records say. |
| CapacityMetrics.WindowsHold | src/usage-accounting-core.ts:318-326 | The windows of all slots are open at a time as often as attempts hold a connection then, and as long in total. |
| CapacityMetrics.ComputeMetrics | src/usage-accounting-core.ts:267-367 | In terms of the record fields: occupied, provisioned, unhealthy and idle slot time are sizes of sets of (slot, millisecond) pairs, active time the sum of overlaps, peak the greatest number of attempts connected at once, p95 the least number not exceeded for 95 percent of the period, and p95 <= peak. |
| Summaries.StartsOf | src/usage-accounting-core.ts:475-492 | The period walk ends and finds exactly the periods a record completes in or its window overlaps, within the query. |
| Summaries.GroupByPeriod | src/usage-accounting-core.ts:473-498 | The map holds, for each period, the matching records assigned to it in input order, and no empty period. |
| Summaries.MakeRollup | src/usage-accounting-core.ts:515-575 | One rollup: estimate, provider spend from matching totals, attributed cost and status. |
| Summaries.SummarizeUsage | src/usage-accounting-core.ts:465-584 | The whole summary is the rollups of all periods in time order, or the error for an empty range. |
| SummaryMeaning.AssignedIs | src/usage-accounting-core.ts:475-492 | A record counts in a period exactly when it is an attempt completed there within the range, or its span meets the range and the period. |
| SummaryMeaning.GroupsAre | src/usage-accounting-core.ts:501-513 | The groups of a period are exactly the values of its records; by customer, those of attempts and, with capacity, Unallocated. |
| SummaryMeaning.MissingValues | src/usage-accounting-core.ts:160-174 | Records without a job or session mode are in group Unallocated, without a destination or place in Unknown. |
| SummaryMeaning.FilterIsGroup | src/usage-accounting-core.ts:160-192 | Filtering by a value of any attribute keeps, in every period, exactly the records of that value's group. |
| SummaryMeaning.OneOperation | src/usage-accounting-core.ts:183-183 | Filtering by a logical operation keeps its records. |
| SummaryMeaning.UngroupedRollup | src/usage-accounting-core.ts:536-573 | The ungrouped rollup is reconciled exactly when there are as many totals as named providers, and any; it is then spent and attributed those totals, else its estimate. |
| SummaryMeaning.GroupedRollup | src/usage-accounting-core.ts:536-573 | A grouped rollup is attributed its estimate, and reconciled only by customer. |
| UsageTotals.PeriodConserved | src/usage-accounting-core.ts:501-531 | In one period, with no customer filter, the group estimates add up to the ungrouped estimate for every groupBy, customer included. |
| UsageTotals.ChargedOnce | src/usage-accounting-core.ts:475-498 | Over an aligned range a record's charges in the periods it is entered in add up to its charge over the range. |
| UsageTotals.PeriodsAddUp | src/usage-accounting-core.ts:465-531 | Over an aligned range the estimates of all periods add up to the estimate of the range as one period. |
| UsageTotals.SummaryConserved | src/usage-accounting-core.ts:465-584 | All rollups of a summary, for every grouping, add up to that estimate: each per-GiB record once, each capacity window for its part inside. |
| SpendTotals.TotalSplits | src/usage-accounting-core.ts:547-560 | A reported total with estimates behind it is split among the customers without remainder. |
| SpendTotals.PartInProportion | src/usage-accounting-core.ts:547-560 | A customer's part of a total is to the total as its estimate at the provider is to the provider's. |
| SpendTotals.TotalUnsplit | src/usage-accounting-core.ts:555-558 | Without estimates it goes whole to Unallocated if that group knows the provider, and to nobody otherwise. |
| SpendTotals.SpendConserved | src/usage-accounting-core.ts:538-563 | For all totals and entries, the provider spend of a period's customer rollups is the totals that land less the parts of customers whose rollups are not reconciled. |
| SpendTotals.SpendConservedIff | src/usage-accounting-core.ts:538-563 | With amounts and prices that are not negative, it adds up to the reported totals of the period if and only if every total lands and every customer with a part of one has as many totals as providers. |
| SpendTotals.TotalCanBeLost | src/usage-accounting-core.ts:547-563 | One unpriced attempt and one total: the only rollup is reconciled and spends nothing. |
| SpendTotals.PartCanBeLost | src/usage-accounting-core.ts:538-541 | A customer with a second provider that has no total: its half of a total that lands is spent by nobody. |
| Reconciliation.ResetCustomers | src/usage-accounting-worker.ts:107-113 | Every customer rollup of the period, and no other, is back at its estimate and reconciled; the first Unallocated one is found if there is one. |
| Reconciliation.BookVariance | src/usage-accounting-worker.ts:107-157 | Attributed cost of the period becomes its estimates plus the variance, only Unallocated departs from its estimate, other periods and intervals keep theirs. |
| Reconciliation.BookInterval | src/usage-accounting-worker.ts:95-159 | The same for all periods of an interval at once, rollup by rollup and in total. |
| Reconciliation.CompareTotals | src/usage-accounting-worker.ts:36-88 | One adjustment per reported total, against the estimate of its provider and period; fails when a total's period is empty. |
| Reconciliation.Run | src/usage-accounting-worker.ts:31-159 | A run fails exactly for an empty range or an empty total period; otherwise every reconciled hour and day holds estimates plus variance, and nothing else changes. |
| ReconciledTotals.AssignedIsTouching | src/usage-accounting-core.ts:473-498 | Over an aligned range, a record is assigned to a period exactly when it completes in it or its window overlaps it. |
| ReconciledTotals.EntriesLocal | src/usage-accounting-worker.ts:40-47 | The records a total is compared with are those of its provider in the run's own period. |
| ReconciledTotals.ComparedIs | src/usage-accounting-worker.ts:37-47 | The compared estimate is the estimate of the provider's records in that hour or day. |
| ReconciledTotals.AdjustmentTells | src/usage-accounting-worker.ts:36-72 | An adjustment tells provider, period, reported total, estimate and their difference. |
| ReconciledTotals.InitialEstimates | src/usage-accounting-worker.ts:89-94 | Before booking, the customer rollups of a period add up to the estimate of its records. |
| ReconciledTotals.ReconciledPeriod | src/usage-accounting-worker.ts:31-159 | With at most one total per provider and period, the customers' attributed costs of a reconciled period add up to the reported totals plus the estimates of the providers without one, whether or not Unallocated existed. |
| ReconciledTotals.AttributedIs | src/usage-accounting-worker.ts:107-157 | With any number of totals per provider, a reconciled period's attributed costs are its estimate plus the reported totals less the estimate compared with each of them. |
| ReconciledTotals.ReconciledPeriodIff | src/usage-accounting-worker.ts:31-159 | So they are the reported totals plus the other providers' estimates if and only if the estimates compared add up to those of the reporting providers, each once. |
| ReconciledTotals.ReconciledPeriodRepeats | src/usage-accounting-worker.ts:31-159 | With prices that are not negative: if and only if no provider with an estimate has two totals for the period. |
| ReconciledTotals.RepeatedTotal | src/usage-accounting-worker.ts:36-159 | One attempt estimated at one dollar and totals of two and three for its provider: four dollars are attributed where five were reported. |
| CapacityCircuit.ProbeIsExclusive | src/capacity-circuit.ts:12-30 | In every run a granted probe excludes every other grant for 30 s unless the circuit is reset. |
| CapacityCircuit.CooldownHolds | src/capacity-circuit.ts:6-10 | A circuit open after at least two failures grants nothing before its cooldown ends, unless reset. |
| CapacityCircuit.StaysShutIff | src/capacity-circuit.ts:6-57 | With calls in any order of time, an event leaves a shut circuit shut until an instant if and only if it is no reset, meets no expiry and is no failure whose own cooldown ends before that; until then no claim is granted. |
| CapacityCircuit.ExpiryIsSafe | src/in-memory-route-store.ts:404-436 | Expiry never drops a state whose cooldown or probe lease still runs. |
| CapacityCircuit.CooldownsNeverShrink | src/capacity-circuit.ts:40-56 | Each cooldown lasts one to fifteen minutes and none is shorter than an earlier one, without a reset or expiry in between. |
| CapacityCircuit.OpenStaysOpen | src/capacity-circuit.ts:40-49 | A failure keeps an open circuit open if and only if it is a hard limit or two failures were recorded before. |
| CapacityCircuit.SoftFailureCloses | src/capacity-circuit.ts:40-49 | The concrete case in which a soft failure closes an open circuit. |
| CapacityCircuit.NeverClosesByFailure | src/capacity-circuit.ts:32-57 | From two failures on, a tripped circuit stays open or half-open until reset or expiry, in every run. |
| CapacityCircuit.TripsIff | src/capacity-circuit.ts:40-49 | In every run a failure leaves the circuit open if and only if it is the third or later since the last reset or expiry, a hard limit, or the answer to a probe. |
| CapacityCircuit.OpeningLength | src/capacity-circuit.ts:43-44 | The openings since a reset or expiry last 1, 2, 4, 8 and then 15 minutes from the failure. |
| CapacityCircuit.ThirdFailureShuts | src/capacity-circuit.ts:32-57 | From the third failure on nothing is granted before the cooldown ends, unless reset. |
| CapacityCircuit.GrantedIff | src/capacity-circuit.ts:6-10 | In every run a claim is granted if and only if the circuit is absent, expired or closed, or past the cooldown of its last opening, or 30 s past its last probe. |
| CapacityCircuit.ClaimMoves | src/capacity-circuit.ts:12-30 | A grant moves a tripped circuit to half-open at its instant; a refusal, or a grant of a closed one, changes nothing. |
| CapacityCircuit.KeptForADay | src/capacity-circuit.ts:4-4 | Every stored state expires a day after the event that wrote it. |
| CapacityCircuit.ThreeFailuresTrip | src/capacity-circuit.ts:32-57 | A run in which the third soft failure trips a new circuit for exactly a minute. |
| CapacityCircuit.CircuitStore.GetCapacityCircuit | src/in-memory-route-store.ts:404-412 | Drops an expired state, returns what is left, and leaves other keys alone. |
| CapacityCircuit.CircuitStore.ClaimCapacityCircuit | src/in-memory-route-store.ts:414-424 | Takes the claim step on the key's circuit only, and grants exactly when the step does. |
| CapacityCircuit.CircuitStore.RecordCapacityCircuitFailure | src/in-memory-route-store.ts:426-436 | Takes the failure step on the key's circuit only. |
| CapacityCircuit.CircuitStore.ResetCapacityCircuit | src/in-memory-route-store.ts:438-440 | Forgets the key's circuit only. |
| CapacityCircuit.CircuitStore.DropExpired | src/in-memory-route-store.ts:442-447 | Forgets exactly the expired circuits. |
| CircuitLock.MutualExclusion | src/dynamo-runtime-state-repository.ts:47-84 | In every interleaving whose sections stay within the whole seconds of their lease, no two processes are inside one circuit's section at once. |
| CircuitLock.NoLostFailure | src/dynamo-runtime-state-repository.ts:284-307 | After n failures recorded since the last delete the stored count is n, whatever claims, expiries and unlocked deletes come between, as long as no delete meets a process about to write over the state. |
| CircuitLock.DropKeepsCount | src/dynamo-runtime-state-repository.ts:255-267 | A delete outside the lock keeps the invariant behind the count if and only if nobody is about to write over the state. |
| CircuitLock.UnlockedDropIsUndone | src/dynamo-runtime-state-repository.ts:309-311 | In every such run, an unlocked delete can be followed by a wrong count if and only if somebody is about to write over the state. |
| CircuitLock.UndoneDropRun | src/dynamo-runtime-state-repository.ts:255-307 | A run, all on time, in which a deleted circuit comes back with two failures where one followed the delete. |
| CircuitLock.CircuitFollows | src/dynamo-runtime-state-repository.ts:269-307 | Section by section the stored circuit takes the steps of the circuit alone, and a call is granted only what the circuit grants. |
| CircuitLock.OutlastedIff | src/dynamo-runtime-state-repository.ts:269-307 | In every run, a step keeps a circuit that is shut until an instant shut if and only if the event it carries out does. |
| CircuitLock.LockedProbeIsExclusive | src/dynamo-runtime-state-repository.ts:269-282 | A probe granted under the lock excludes every other grant for 30 s, although calls fix their instant before they wait, as long as each step in between is such a step. |
| CircuitLock.ReleaseIsOwn | src/dynamo-runtime-state-repository.ts:70-83 | A release removes the lock exactly when the caller owns it, on time or late. |
| CircuitLock.ReleaseFrees | src/dynamo-runtime-state-repository.ts:68-83 | On time, a release frees the lock. |
| CircuitLock.LateSectionIsOverrun | src/dynamo-runtime-state-repository.ts:52-62 | In every run on time so far, a newcomer enters beside a section if and only if the section has outlived its lease. |
| CircuitLock.OverrunRun | src/dynamo-runtime-state-repository.ts:47-84 | A run in which two processes stand in one section. |
| CircuitLock.AbandonedLockExpires | src/dynamo-runtime-state-repository.ts:70-83 | A lock left behind by a failed release keeps newcomers out exactly until its whole seconds have passed. |
| CircuitLock.EntersIff | src/dynamo-runtime-state-repository.ts:47-67 | A call enters, for 10 s, if and only if the lock is free or its seconds have passed; a refused one waits and gives up 5 s after it started. |
| ActiveLoad.LeasesAreExact | src/dynamo-runtime-state-repository.ts:86-199 | In every interleaving the lease records, with their expiry seconds, are exactly those of tunnels registered and not removed. |
| ActiveLoad.LateHeartbeatIsCancelled | src/dynamo-runtime-state-repository.ts:131-168 | A heartbeat that commits after its tunnel was removed changes nothing. |
| ActiveLoad.RemovedForGood | src/dynamo-runtime-state-repository.ts:131-191 | A removed tunnel never becomes live again. |
| ActiveLoad.SecondRounding | src/dynamo-runtime-state-repository.ts:201-219 | Rounding expiry up and now down never hides a live lease and shows a dead one for less than a second. |
| ActiveLoad.CountsAgree | src/dynamo-runtime-state-repository.ts:201-253 | The DynamoDB count is at least the in-memory one and exceeds it only by leases that ended less than a second ago. |
| ActiveLoad.TunnelStore.RegisterActiveTunnel | src/in-memory-route-store.ts:326-329 | Adds a new tunnel and refuses an id in use. |
| ActiveLoad.TunnelStore.HeartbeatActiveTunnel | src/in-memory-route-store.ts:353-358 | Extends a known tunnel and ignores an unknown one. |
| ActiveLoad.TunnelStore.RemoveActiveTunnel | src/in-memory-route-store.ts:360-362 | Removes that tunnel only. |
| ActiveLoad.TunnelStore.GetActiveConnectionCounts | src/in-memory-route-store.ts:375-402 | The counting loop returns the numbers of live tunnels of each provider, endpoint and session asked for; an endpoint counts one provider's tunnels when exactly one is asked for, else all. |
| ActiveLoad.EndpointCountsAgree | src/dynamo-runtime-state-repository.ts:234-249 | In every run the DynamoDB endpoint count covers the in-memory one if and only if exactly one provider is asked for or there is nothing to count; otherwise it is empty. |
| ActiveLoad.EndpointCountsDiffer | src/dynamo-runtime-state-repository.ts:234-249 | A run with one tunnel that is counted in memory and not in DynamoDB. |
| SessionBinding.VersionDeterminesBinding | src/route-service.ts:851-906 | In every interleaving, while a session is open its bindingVersion determines its affinity. |
| SessionBinding.OneInstallPerVersion | src/route-service.ts:618-635 | Of all resolvers that read a version, at most one installs its write over it. |
| SessionBinding.InstallsOverWhatItRead | src/in-memory-route-store.ts:287-292 | A write that is installed replaces the very binding its resolver had read. |
| SessionBinding.BindingTakesEffect | src/route-service.ts:876-897 | In every run a write of a binding takes effect under the next version exactly when the session is open at the version read, and otherwise changes nothing. |
| SessionBinding.UseTakesEffect | src/route-service.ts:863-874 | A use marks its time and keeps the rest of the binding. |
| SessionBinding.WindowTakesEffect | src/route-service.ts:618-635 | A health window is opened or closed alone, and the resolver goes on at the new version. |
| SessionBinding.CloseTakesEffect | src/dynamo-store.ts:540-555 | A close of a session read open closes it, with its time and termination flag. |
| SessionBinding.UndisturbedInstalls | src/route-service.ts:876-897 | A resolver undisturbed between read and write installs its binding. |
| SessionBinding.DisconnectNeverReverts | src/active-connection-tracker.ts:181-189 | A disconnect write changes neither version, binding nor status, whenever it lands. |
| SessionBinding.ClosedForGood | src/in-memory-route-store.ts:287-305 | A closed session is never reopened by any write under way. |
| SessionBinding.DisconnectTimeSurvives | src/active-connection-tracker.ts:181-189 | In every run a recorded disconnect time survives every step but the record of the next disconnect, once no writer that can still write holds another. |
| SessionBinding.DisconnectTimeSurvivesIff | src/active-connection-tracker.ts:185-188 | In every state of a run it survives all continuations if and only if no resolver at the session's version and no closer that will write holds another. |
| SessionBinding.RecordedTimeCanBeLost | src/active-connection-tracker.ts:185-188 | A time just recorded can be lost if and only if such a writer had read the session before. |
| SessionBinding.DisconnectTimeCanBeLost | src/active-connection-tracker.ts:185-188 | A run from an idle session in which a resolver's write puts back what it read before the disconnect. |
| SessionBinding.SessionStore.CreateLogicalSession | src/in-memory-route-store.ts:269-272 | Adds a session under a new id only. |
| SessionBinding.SessionStore.GetLogicalSession | src/in-memory-route-store.ts:274-278 | Finds a session that is open, or closed when asked for. |
| SessionBinding.SessionStore.SaveLogicalSession | src/in-memory-route-store.ts:287-292 | Compare-and-set: saves exactly when the session is open and at the expected version. |
| SessionBinding.SessionStore.WriteClosed | src/in-memory-route-store.ts:294-305 | Writes the closed copy, with the termination flag and a raised version, unless the copy read was closed already. |
| AuthorizationCache.RepliesAreFresh | src/route-service.ts:510-541 | In every run, a reply at time t is what the store answered at some t0 > t - 30 s with no epoch-raising change between t0 and t - 1 s. |
| AuthorizationCache.RevocationTakesEffect | src/route-service.ts:176-189 | One second after an epoch-raising change that makes a key unanswerable, every authentication with it is refused. |
| AuthorizationCache.CacheIsBoundedAndOrdered | src/route-service.ts:195-201 | The cache never exceeds 10,000 entries and is in order of last use. |
| AuthorizationCache.EvictsLeastRecent | src/route-service.ts:195-201 | An entry pushed out was used less recently than every entry kept. |
| AuthorizationCache.AuthorizationService.RefreshAuthorizationEpoch | src/route-service.ts:176-189 | At most one comparison per second; a different epoch empties the cache. |
| AuthorizationCache.AuthorizationService.Authenticate | src/route-service.ts:510-541 | Takes the authentication step: malformed keys, hits, expired entries, refusals and insertions. |
| AuthorizationCache.AuthorizationService.InvalidateAuthorizationCache | src/route-service.ts:203-207 | Returns to the state of a new service. |
| Credentials.UnusableForGood | src/in-memory-route-store.ts:38-44 | In every run of create, add, rotate and revoke, a credential that stops being usable never becomes usable again. |
| Credentials.NoneUsableAfterLifetime | src/store.ts:38-66 | No credential is usable 30 days after its creation. |
| Credentials.RotatedEnds | src/in-memory-route-store.ts:217-244 | A rotated credential ends within 72 h of its last rotation, at once when compromise was suspected. |
| Credentials.SecondRotationExtends | src/in-memory-route-store.ts:231-239 | A second rotation moves the end later if and only if it comes later, during the overlap, and the expiry did not cap the overlap. |
| Credentials.SecondRotationExtendsInRun | src/in-memory-route-store.ts:217-244 | In every run the same for a request to rotate again, given that the grant is ready and the credential was not revoked meanwhile. |
| Credentials.SecondRotationRun | src/in-memory-route-store.ts:231-239 | A run in which a second rotation moves the end by a millisecond. |
| Credentials.PublicStatusIsUsability | src/store.ts:72-101 | The public status is active or overlap if and only if the grant is ready and the credential usable. |
| Credentials.NewCredential | src/store.ts:38-66 | A new credential is active, expires after 30 days and is due for renewal 7 days earlier. |
| Credentials.StepEvolves | src/in-memory-route-store.ts:165-257 | Each operation changes a given credential only in the ways rotation and revocation allow, and keeps ids unique. |
| AuthorizationStore.RotateMatching | src/in-memory-route-store.ts:228-240 | The loop over the grant's credentials rotates exactly those with the id. |
| AuthorizationStore.RevocationBlocks | src/in-memory-route-store.ts:217-318 | Every revocation of a credential, grant or route, every close of a session and every rotation on suspected compromise blocks its credentials and raises the epoch. |
| AuthorizationStore.RejectedChangesNothing | src/in-memory-route-store.ts:95-318 | An operation the store throws for changes nothing. |
| AuthorizationStore.EpochNeverFalls | src/in-memory-route-store.ts:87-122 | No operation lowers the epoch. |
| AuthorizationStore.EndsAreFinal | src/in-memory-route-store.ts:294-318 | Revoked routes and closed sessions stay so. |
| AuthorizationStore.RefusedForGood | src/in-memory-route-store.ts:195-215 | A credential once blocked stays blocked in every run. |
| AuthorizationStore.RevocationReachesAuthentication | src/route-service.ts:510-541 | End to end: one second after such a revocation, no authentication with that credential succeeds, whatever the cache held and whoever made the change. |
| Acceptance.AnswerIff | src/in-memory-route-store.ts:195-215 | The store answers a key with a route if and only if a credential with that name and token has not ended, its grant and route are ready, a managed one has its own session open, and the route is its own. |
| Acceptance.AuthenticatesIff | src/route-service.ts:510-541 | In every run, with nothing fresh cached, an authentication replies with a route if and only if the key is well formed and a credential admits it. |
| Acceptance.CacheServes | src/route-service.ts:516-522 | A route fetched under the current epoch is served to the next authentication with the key for 30 s, then the store is asked. |
| Acceptance.LocalChangeIsImmediate | src/route-service.ts:203-207 | A change made through the service is seen by the very next authentication. |
| Acceptance.SparedStays | src/in-memory-route-store.ts:95-318 | No operation takes admission away but those that end or rotate the credential, or end its grant, route or session. |
| Acceptance.SparedIsLetIn | src/route-service.ts:510-541 | In every run a credential not ended or rotated in between is let in until it expires. |
| Acceptance.CreatedIsAdmitted | src/in-memory-route-store.ts:137-163 | The credential of a new grant is admitted for 30 days. |
| Acceptance.AddedIsAdmitted | src/in-memory-route-store.ts:165-179 | So is one added to a ready grant. |
| Acceptance.RotatedIsAdmitted | src/in-memory-route-store.ts:217-244 | A rotation admits the new credential for 30 days, and the old one for exactly 72 h, up to its expiry, unless compromise was suspected. |
| Acceptance.AcceptedChanges | src/in-memory-route-store.ts:95-318 | What an accepted operation does to routes, grants and sessions. |
| AuthorizationStore.InMemoryRouteStore.Create | src/in-memory-route-store.ts:95-109 | Takes the create step on routes and epoch, and fails exactly for a known id. |
| AuthorizationStore.InMemoryRouteStore.Update | src/in-memory-route-store.ts:111-122 | Takes the update step, and fails exactly for an unknown or revoked route. |
| AuthorizationStore.InMemoryRouteStore.Revoke | src/in-memory-route-store.ts:311-318 | Takes the route revocation step, and fails exactly for an unknown route or a revoked one that is not to be terminated. |
| AuthorizationStore.InMemoryRouteStore.CreateAccessGrant | src/in-memory-route-store.ts:137-163 | Takes the grant creation step, and fails exactly for a route not ready or a known grant. |
| AuthorizationStore.InMemoryRouteStore.AddAccessGrantCredential | src/in-memory-route-store.ts:165-179 | Takes the credential addition step, and fails exactly for an unknown or revoked grant. |
| AuthorizationStore.InMemoryRouteStore.RotateAccessGrantCredential | src/in-memory-route-store.ts:217-244 | Takes the rotation step, and fails exactly when the credential cannot be rotated. |
| AuthorizationStore.InMemoryRouteStore.RevokeAccessGrantCredential | src/in-memory-route-store.ts:246-257 | Takes the credential revocation step, and fails exactly for an unknown grant or credential. |
| AuthorizationStore.InMemoryRouteStore.RevokeAccessGrant | src/in-memory-route-store.ts:259-267 | Takes the grant revocation step with the close of its sessions, and fails exactly for an unknown grant. |
| AuthorizationStore.InMemoryRouteStore.CloseLogicalSession | src/in-memory-route-store.ts:294-305 | Takes the session close step, and fails exactly for an unknown session. |
| AuthorizationStore.InMemoryRouteStore.CloseLogicalSessions | src/in-memory-route-store.ts:307-309 | Closes exactly the grant's open sessions and raises the epoch once for each. |
| Ranking.ScoreIsLeastLoad | src/routing-candidate-ranker.ts:81-120 | A provider is scored with its least loaded eligible candidate, unsaturated ones first, and is saturated exactly when all of them are. |
| Ranking.FinalBranch | src/routing-candidate-ranker.ts:205-232 | Chosen provider, rest of its tier, other tier: one sort by (not preferred class, saturated, load, id). |
| Ranking.FallbackBranch | src/routing-candidate-ranker.ts:163-204 | Three stitched tiers: one sort by (unsaturated fallback, preferred, saturated fallback), load and id. |
| Ranking.RetryBranch | src/routing-candidate-ranker.ts:147-162 | The previous provider put in front of the others in order of load is one sort by (not previous, load, id). |
| Ranking.RankRetry | src/routing-candidate-ranker.ts:147-162 | The previous provider comes first, the others are sorted by load and id, and every scored provider is there once. |
| Ranking.RankFallback | src/routing-candidate-ranker.ts:163-204 | The statements of the fallback branch return that one sort. |
| Ranking.RankFinal | src/routing-candidate-ranker.ts:205-232 | The statements of the last branch return that one sort. |
| Ranking.ResolutionState.MarkRefusals | src/routing-candidate-ranker.ts:84-88 | The capacity constraint is set if and only if it was or some candidate's circuit refuses. |
| Ranking.ResolutionState.ScoreProviders | src/routing-candidate-ranker.ts:71-135 | The scoring loop scores every eligible provider in order and marks refused circuits. |
| Ranking.FallsBackMeans | src/routing-candidate-ranker.ts:163-166 | The fallback is taken exactly for a stateless request whose residential providers are all saturated while a device-backed one has room. |
| Ranking.ReferenceInOrder | src/routing-candidate-ranker.ts:163-232 | Unless the previous provider is retried: device-backed ones first for managed requests; residential ones first for stateless ones, but for unsaturated device-backed ones when all residential ones are saturated; within a class by saturation, load and id. |
| Ranking.ResolutionState.RankProviders | src/routing-candidate-ranker.ts:62-233 | In terms of providers and request: exactly the providers that can serve are ranked, each with its own or its least loaded fit candidate's load; the previous one leads while tried less than twice, else the order is the one above; primary provider, capacity constraint, fallback flag and pressed provider are what that order implies. |
| SlotAllocator.SelectIsLeast | src/route-service.ts:329-336 | Whatever saturates slots, without affinity the chosen one is unsaturated unless all are saturated, and least loaded among the candidates like it. |
| SlotAllocator.EvenIsQuotient | src/route-service.ts:311-339 | Loads that differ by at most one and add up to n over m slots are floor(n/m) or ceil(n/m). |
| SlotAllocator.SlotStore.CountLoads | src/in-memory-route-store.ts:338-343 | The loads offered to the choice are the live tunnels on each candidate slot. |
| SlotAllocator.LeastByLoad | src/route-service.ts:329-336 | When load alone saturates, the claimed slot is least loaded of all, below and above the soft limit. |
| SlotAllocator.SlotStore.ClaimActiveTunnelSlot | src/in-memory-route-store.ts:331-351 | A claim adds one tunnel, on the preferred slot or on one with room that is least loaded, or least loaded of all when none has room, and returns its new load; without candidates nothing changes. |
| SlotAllocator.SlotStore.ClaimMany | src/in-memory-route-store.ts:331-351 | n claims from empty leave each of m slots at floor(n/m) or ceil(n/m). |
| HealthAlerts.SnapshotsIncrease | src/health-aggregator.ts:215-219 | Snapshot times strictly increase even where the clock steps back. |
| HealthAlerts.SnapshotTimes | src/health-aggregator.ts:215-219 | A snapshot has the clock's time where the previous one is earlier, else the next millisecond. |
| HealthAlerts.EmitsIff | src/alerting.ts:212-264 | A snapshot adds an event exactly on the return to operational while an alert stands, on unavailability, and on degradation unbroken for the delay, unless an alert of that status stands; the event tells capability, status, time, the start of its episode and the alert it answers. |
| HealthAlerts.EventsArePaired | src/alerting.ts:212-239 | Each recovery answers an alert not yet recovered, with its status, and consecutive alerts without a recovery differ. |
| HealthAlerts.DegradedNeedsDelay | src/alerting.ts:231-236 | A degraded alert needs the full delay of unbroken degraded status. |
| HealthAlerts.StandingAlertIsRight | src/alerting.ts:212-239 | After every snapshot the standing alert is none when operational, and this status when unavailable or degraded long enough. |
| HealthAlerts.DedupeKeysNeverCollide | src/alerting.ts:249-264 | Over every clock and status sequence no two events share a dedupe key, so all are stored. |
| HealthAlerts.CrashesChangeNothing | src/alerting.ts:212-283 | Over every run with any number of stops, each without an event to emit, or followed by the same status, or stored and followed by another event, the stored events have the keys of the uninterrupted run, each once, and the same alert stands. |
| HealthAlerts.CrashesChangeNothingIff | src/alerting.ts:212-283 | Where each stop is followed by a complete evaluation, that holds after every complete evaluation if and only if every stop is such a stop. |
| HealthAlerts.CrashCanLoseEpisode | src/alerting.ts:224-239 | A stop followed by another status after which an alert and its recovery are missing. |
| HealthAlerts.StoredForGood | src/in-memory-route-store.ts:507-514 | An event once stored is never replaced, whatever stops and repeats follow. |
| HealthAlerts.HealthAlertCoordinator.CreateHealthAlertEvent | src/in-memory-route-store.ts:507-528 | Stores an event exactly when its key is new. |
| HealthAlerts.HealthAlertCoordinator.EvaluateCapability | src/alerting.ts:212-239 | The saved state and the stored event of one evaluation, complete or stopped at either point. |
| SchemaReachability.CollectSchemaReferences | src/control-contract.ts:354-368 | The recursive walk adds exactly the schema names mentioned at any depth. |
| SchemaReachability.KnownReferences | src/control-contract.ts:361-366 | A `$ref` into the schemas mentions the name behind it; other keys and other references mention nothing. |
| SchemaReachability.ClosedHoldsChain | src/control-contract.ts:382-392 | A set with the roots that is closed under references holds the end of every reference chain. |
| SchemaReachability.ReferencedSchemas | src/control-contract.ts:380-392 | The worklist ends and its references are exactly the names reachable by chains, with cycles and dangling names. |
| SchemaReachability.RetainSchemas | src/control-contract.ts:377-394 | Exactly the reachable schemas stay, unchanged, the API error's among them if reachable. |
| SchemaReachability.PruningIsIdempotent | src/control-contract.ts:377-394 | Pruning again prunes nothing. |
| SchemaReachability.ReferencesStillResolve | src/control-contract.ts:377-394 | A reference in the pruned document resolves exactly when it did before, to the same schema. |
| Texts.DigitsRead | src/socks5-proxy.ts:61-61 | Printed digits, in any radix up to 16, read back as the number and have no leading zero. |
| Texts.SplitJoin | src/upstream-tunnel.ts:56-63 | Splitting on a character undoes joining parts free of it. |
| Texts.SplitDouble | src/upstream-tunnel.ts:53-53 | A double colon between two texts without adjacent or outer colons is found as the only one. |
| Socks5.Ipv6Text | src/socks5-proxy.ts:59-63 | Eight groups in hexadecimal without leading zeros, joined by colons. |
| Socks5.HandshakeReader.Read | src/socks5-proxy.ts:37-56 | Takes that many bytes, or fails for the handshake's limit or the end of the input. |
| Socks5.HandshakeReader.ReadTarget | src/socks5-proxy.ts:65-74 | Takes exactly the bytes of an address of its type and returns its text, with all four failures. |
| Socks5.ParseSide | src/upstream-tunnel.ts:54-72 | The groups of one side, dotted quads as two, or the error for a short quad. |
| Socks5.WriteGroups | src/upstream-tunnel.ts:76-78 | The sixteen bytes whose big-endian groups are these, zero where none is written, or a range error. |
| Socks5.Ipv6Bytes | src/upstream-tunnel.ts:52-79 | The bytes of the groups left of, filled in for and right of the double colon. |
| Socks5.SpellingSent | src/upstream-tunnel.ts:52-79 | Every text of section 2.2 of RFC 4291 (either case, leading zeros, double colon, dotted tail) is sent as the sixteen bytes it denotes. |
| Socks5.AddressReturns | src/upstream-tunnel.ts:81-91 | Every address read, of each type of sections 4 and 5 of RFC 1928, is sent upstream as the very type and bytes it was read from; a host name if and only if it is valid UTF-8 and not the text of a numeric address. |
| Socks5.NumericNameIsAddress | src/upstream-tunnel.ts:81-85 | A host name that is such a text is sent as the address it spells. |
| Socks5.TextsDiffer | src/socks5-proxy.ts:59-67 | Different addresses of one numeric type have different texts. |
| Socks5.TextMeans | src/socks5-proxy.ts:59-67 | Groups are printed in network order and octets one by one; each address goes out behind type 4 or 1. |
| Socks5.KnownDigits | src/socks5-proxy.ts:61-61 | The printed digits of some numbers. |
| Socks5.FamiliesDiffer | src/upstream-tunnel.ts:81-86 | Texts of the two numeric families never coincide, so a classification as `isIP` gives exists. |

## Left out

- Socks5.ParseSide: `Number` and `parseInt` are modelled on digits; exponents, signs, `0x` and spaces, which `isIP` rejects, and zone suffixes are not.
- Socks5.HandshakeReader.Read: the chunks a socket delivers are one sequence of bytes.
- ReconciledTotals.ReconciledPeriod: asks for at most one total per provider and period; `ReconciledPeriodRepeats` is the exact condition with several.
- Concurrency.ConcurrencyPercentile: windows lie inside the period, as `capacityMetrics` clips them, and the share is positive and at most one.
- Summaries.SummarizeUsage: rollups are listed by period and then by group as found; the final tie order by id is not modelled.
- SessionBinding.SessionStore.WriteClosed: `updatedAt` is not modelled.
- CapacityMetrics.ComputeMetrics: leaves out ratios, byte counts, forecasts and the fields that read the wall clock.
- Summaries.MakeRollup: leaves out operation, byte, retry and latency counts, capacity figures and pricing versions.
- Reconciliation.CompareTotals: leaves out the relative variance and severity of an adjustment.
- Reconciliation.Run: leaves out store writes, alert events and pressure evidence.
- CapacityCircuit.CircuitStore.DropExpired: leaves out the sorted list that is returned.
- AuthorizationStore.InMemoryRouteStore.Create: like the store's other operations, leaves out returned copies, `terminateActive` flags and the dates of routes and grants.
- Operation, byte, retry and latency counts of rollups, utilization ratios and pricing versions: easy sums over the same entries.
- Fields that read the wall clock: current occupancy, active connections, `updatedAt`.
- Severity, alert events and store writes of the accounting worker, and its capacity-pressure callback.
- Floating-point rounding, and invalid dates, which the record decoders reject.
- Scores and their weights (`0.5 ** x`): the ranking sorts by load and id, so only load and saturation are modelled. `localeCompare` is an order on ids.
- DynamoDB time-to-live sweeps, paging, and the DynamoDB form of slot claims.
- Retry waits of the circuit lock: how long a process sleeps between attempts.
- Hashing and salts: a credential's token stands for its hash. The `lastUsedAt` mark of authentication is not kept.
- An await between the store's answer and the cache insertion: authentication is one step, as the staleness bound needs.
- Alert deliveries, webhook signing and retries; log lines; geographies of an event.
- The rewriting of OpenAPI nodes before pruning.
- The connection poller, its callback indexes and the drain of deployments.
- HTTP, TLS and socket plumbing, target filtering, configuration, dashboards and scripts.
