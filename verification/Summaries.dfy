/** summarizeUsage: which periods a record belongs to, the groups of a period, and
    what the estimates of all rollups add up to. */
module Summaries {
  import opened Options
  import opened Windows
  import opened Concurrency
  import opened Periods
  import opened UsageRecords
  import opened Sums
  import opened Estimates
  import opened CostEstimation

  datatype Query = Query(
    from: int, to: int, interval: Interval, groupBy: Option<GroupBy>,
    customerId: Option<Id>, provider: Option<Id>, userId: Option<Id>, routeId: Option<Id>, jobId: Option<Id>,
    logicalOperationId: Option<Id>, sessionMode: Option<SessionMode>, destinationDomain: Option<Id>,
    destinationHost: Option<Id>, destinationPathTemplate: Option<Id>, country: Option<Id>, city: Option<Id>,
    outcome: Option<Outcome>)

  /** The query with nothing but a range, an interval and a grouping. */
  function PlainQuery(from: int, to: int, interval: Interval, groupBy: Option<GroupBy>): Query {
    Query(from, to, interval, groupBy, None, None, None, None, None, None, None, None, None, None, None, None, None)
  }

  datatype CostTotal = CostTotal(provider: Id, period: Window, amountUsd: real, sourceVersion: Id)

  datatype Rollup = Rollup(
    interval: Interval, period: Window, group: Option<(GroupBy, Id)>,
    estimatedCostUsd: real, providerSpendUsd: real, attributedCostUsd: real, reconciled: bool)

  predicate Matches(r: Record, q: Query) {
    && (q.customerId.None? || r.customerId == q.customerId.value)
    && (q.provider.None? || r.provider == q.provider.value)
    && (q.userId.None? || r.userId == q.userId.value)
    && (q.routeId.None? || r.routeId == q.routeId.value)
    && (q.jobId.None? || r.jobId == q.jobId)
    && (q.logicalOperationId.None? || r.logicalOperationId == q.logicalOperationId.value)
    && (q.sessionMode.None? || r.sessionMode == q.sessionMode)
    && (q.destinationDomain.None? || r.destinationDomain == q.destinationDomain)
    && (q.destinationHost.None? || r.destinationHost == q.destinationHost)
    && (q.destinationPathTemplate.None? || r.destinationPathTemplate == q.destinationPathTemplate)
    && (q.country.None? || r.country == q.country)
    && (q.city.None? || r.city == q.city)
    && (q.outcome.None? || r.outcome == q.outcome.value)
  }

  // ----- Records and periods -----

  function WindowStart(
    r: Record): Option<int> { if r.kind == Capacity then Some(r.startedAt) else r.connectionStartedAt }

  function WindowEnd(r: Record): Option<int> { if r.kind == Capacity then Some(r.completedAt) else r.connectionEndedAt }

  predicate Overlaps(r: Record, q: Query) {
    WindowStart(r).Some? && WindowEnd(r).Some? && WindowStart(r).value < q.to && WindowEnd(r).value > q.from
  }

  predicate Completes(r: Record, q: Query) {
    r.kind == Attempt && q.from <= r.completedAt < q.to
  }

  /** The record is entered in the period that starts at `p`. */
  predicate Assigned(r: Record, q: Query, p: int) {
    || (Completes(r, q) && PeriodStart(r.completedAt, q.interval) == p)
    || (Overlaps(r, q) && IsBoundary(p, q.interval)
        && PeriodStart(Max(q.from, WindowStart(r).value), q.interval) <= p < Min(q.to, WindowEnd(r).value))
  }

  /** The loop that walks the periods a record belongs to; it ends because every
      period is followed by a later one. */
  method StartsOf(r: Record, q: Query) returns (starts: set<int>)
    ensures forall p :: p in starts <==> Assigned(r, q, p)
  {
    hide PeriodStart, NextPeriod;
    starts := {};
    if Completes(r, q) {
      starts := {PeriodStart(r.completedAt, q.interval)};
    }
    if Overlaps(r, q) {
      ghost var completion := starts;
      var first := PeriodStart(Max(q.from, WindowStart(r).value), q.interval);
      var start := first;
      Tiling(Max(q.from, WindowStart(r).value), q.interval);
      while start < Min(q.to, WindowEnd(r).value)
        invariant IsBoundary(start, q.interval) && first <= start
        invariant forall p :: p in starts <==> p in completion || (IsBoundary(p, q.interval) && first <= p < start)
        invariant start == first || exists previous ::
          && IsBoundary(previous, q.interval) && previous < Min(q.to, WindowEnd(r).value)
          && NextPeriod(previous, q.interval) == start
        decreases Min(q.to, WindowEnd(r).value) - start
      {
        starts := starts + {start};
        ghost var current := start;
        BoundariesClosed(start, q.interval);
        NextIsNearest(start, start, q.interval);
        start := NextPeriod(start, q.interval);
        forall p | IsBoundary(p, q.interval) ensures current <= p < start <==> p == current {
          NextIsNearest(current, p, q.interval);
        }
      }
      forall p | IsBoundary(p, q.interval) && p < start ensures p < Min(q.to, WindowEnd(r).value) || p < first {
        if start != first {
          var previous :| IsBoundary(previous, q.interval) && previous < Min(q.to, WindowEnd(r).value)
            && NextPeriod(previous, q.interval) == start;
          NextIsNearest(previous, p, q.interval);
        }
      }
    }
  }

  function Entries(records: seq<Record>, q: Query, p: int): seq<Record> {
    if records == [] then []
    else
      var last := |records| - 1;
      var rest := Entries(records[..last], q, p);
      if Matches(records[last], q) && Assigned(records[last], q, p) then rest + [records[last]] else rest
  }

  ghost predicate ByPeriod(records: seq<Record>, q: Query, byPeriod: map<int, seq<Record>>) {
    forall p :: Entries(records, q, p) == if p in byPeriod then byPeriod[p] else []
  }

  method AddToPeriods(
    r: Record, starts: set<int>, byPeriod: map<int, seq<Record>>) returns (result: map<int, seq<Record>>)
    ensures result.Keys == byPeriod.Keys + starts
    ensures forall p :: p in starts ==> result[p] == (if p in byPeriod then byPeriod[p] else []) + [r]
    ensures forall p :: p in byPeriod && p !in starts ==> result[p] == byPeriod[p]
  {
    result := byPeriod;
    var rest := starts;
    while rest != {}
      invariant rest <= starts
      invariant result.Keys == byPeriod.Keys + (starts - rest)
      invariant forall p :: p in starts - rest ==> result[p] == (if p in byPeriod then byPeriod[p] else []) + [r]
      invariant forall p :: p in byPeriod && p !in starts - rest ==> result[p] == byPeriod[p]
      decreases rest
    {
      Inhabited(rest);
      var start :| start in rest;
      result := result[start := (if start in result then result[start] else []) + [r]];
      rest := rest - {start};
    }
  }

  method GroupByPeriod(records: seq<Record>, q: Query) returns (byPeriod: map<int, seq<Record>>)
    ensures ByPeriod(records, q, byPeriod)
    ensures forall p :: p in byPeriod ==> byPeriod[p] != []
  {
    hide Assigned, Matches;
    byPeriod := map[];
    for i := 0 to |records|
      invariant ByPeriod(records[..i], q, byPeriod)
      invariant forall p :: p in byPeriod ==> byPeriod[p] != []
    {
      assert records[..i + 1][..i] == records[..i];
      if Matches(records[i], q) {
        var starts := StartsOf(records[i], q);
        byPeriod := AddToPeriods(records[i], starts, byPeriod);
      }
    }
    assert records[..|records|] == records;
  }

  // ----- Groups of one period -----

  /** `[...new Set(values)]`: first occurrences, in order. */
  function Distinct(values: seq<Id>): (d: seq<Id>)
    ensures forall v :: v in d <==> v in values
    ensures forall i, j :: 0 <= i < j < |d| ==> d[i] != d[j]
  {
    if values == [] then []
    else
      var last := |values| - 1;
      assert values == values[..last] + [values[last]];
      var rest := Distinct(values[..last]);
      if values[last] in rest then rest else rest + [values[last]]
  }

  function AttemptCustomers(entries: seq<Record>): (s: seq<Id>)
    ensures forall c :: c in s <==> exists r :: r in entries && r.kind == Attempt && r.customerId == c
  {
    if entries == [] then []
    else
      var last := |entries| - 1;
      assert entries == entries[..last] + [entries[last]];
      assert forall r :: r in entries <==> r in entries[..last] || r == entries[last];
      var rest := AttemptCustomers(entries[..last]);
      if entries[last].kind == Attempt then rest + [entries[last].customerId] else rest
  }

  function ValuesIn(entries: seq<Record>, groupBy: GroupBy): (s: seq<Id>)
    ensures forall v :: v in s <==> exists r :: r in entries && GroupValue(r, groupBy) == v
  {
    if entries == [] then []
    else
      var last := |entries| - 1;
      assert entries == entries[..last] + [entries[last]];
      assert forall r :: r in entries <==> r in entries[..last] || r == entries[last];
      ValuesIn(entries[..last], groupBy) + [GroupValue(entries[last], groupBy)]
  }

  predicate HasCapacity(entries: seq<Record>) { exists r :: r in entries && r.kind == Capacity }

  function GroupValues(entries: seq<Record>, groupBy: Option<GroupBy>): (values: seq<Id>)
    ensures forall i, j :: 0 <= i < j < |values| ==> values[i] != values[j]
  {
    if groupBy.None? then ["all"]
    else if groupBy == Some(ByCustomer) then
      Distinct(AttemptCustomers(entries) + (if HasCapacity(entries) then [UNALLOCATED] else []))
    else Distinct(ValuesIn(entries, groupBy.value))
  }

  function OfCustomer(entries: seq<Record>, customer: Id): seq<Record> {
    if entries == [] then []
    else
      var last := |entries| - 1;
      var rest := OfCustomer(entries[..last], customer);
      if entries[last].kind == Capacity || entries[last].customerId == customer then rest + [entries[last]] else rest
  }

  function EntriesOf(entries: seq<Record>, q: Query, value: Id): seq<Record> {
    if q.groupBy.None? then entries
    else if q.groupBy == Some(ByCustomer) then OfCustomer(entries, value)
    else WithValue(entries, q.groupBy.value, value)
  }

  /** The records and the customer that `estimatedCost` is called with. */
  function CostedEntries(entries: seq<Record>, q: Query, value: Id): seq<Record> {
    if q.groupBy == Some(ByCustomer) then entries else EntriesOf(entries, q, value)
  }

  function CostedCustomer(q: Query, value: Id): Option<Id> {
    if q.groupBy == Some(ByCustomer) then Some(value) else q.customerId
  }

  function ProvidersOf(entries: seq<Record>): set<Id> {
    set r | r in entries && r.provider != UNRESOLVED :: r.provider
  }

  function MatchingTotals(totals: seq<CostTotal>, providers: set<Id>, period: Window): seq<CostTotal> {
    if totals == [] then []
    else
      var last := |totals| - 1;
      var rest := MatchingTotals(totals[..last], providers, period);
      if totals[last].provider in providers && totals[last].period == period then rest + [totals[last]] else rest
  }

  predicate IsReconciled(q: Query, providers: set<Id>, matching: seq<CostTotal>) {
    (q.groupBy.None? || q.groupBy == Some(ByCustomer)) && |providers| > 0 && |matching| == |providers|
  }

  /** The part of a reported total that falls on the group. */
  function SpendOf(total: CostTotal, entries: seq<Record>, q: Query, period: Window, value: Id): real {
    if q.groupBy != Some(ByCustomer) then total.amountUsd
    else
      var own := WithValue(entries, ByProvider, total.provider);
      var whole := Estimate(own, period, None);
      if whole == 0.0 then if value == UNALLOCATED then total.amountUsd else 0.0
      else Times(total.amountUsd, Estimate(own, period, Some(value)) / whole)
  }

  function Spend(matching: seq<CostTotal>, entries: seq<Record>, q: Query, period: Window, value: Id): real {
    if matching == [] then 0.0
    else
      var last := |matching| - 1;
      Spend(matching[..last], entries, q, period, value) + SpendOf(matching[last], entries, q, period, value)
  }

  function RollupFor(entries: seq<Record>, q: Query, totals: seq<CostTotal>, period: Window, value: Id): Rollup {
    var estimate := Estimate(CostedEntries(entries, q, value), period, CostedCustomer(q, value));
    var providers := ProvidersOf(EntriesOf(entries, q, value));
    var matching := MatchingTotals(totals, providers, period);
    var reconciled := IsReconciled(q, providers, matching);
    var spend := if reconciled then Spend(matching, entries, q, period, value) else 0.0;
    Rollup(
      q.interval, period, if q.groupBy.None? then None else Some((q.groupBy.value, value)),
      estimate, spend, if reconciled && q.groupBy != Some(ByCustomer) then spend else estimate, reconciled)
  }

  function RollupsFor(
    entries: seq<Record>, q: Query, totals: seq<CostTotal>, period: Window, values: seq<Id>): (s: seq<Rollup>)
    ensures |s| == |values|
    ensures forall i :: 0 <= i < |values| ==> s[i] == RollupFor(entries, q, totals, period, values[i])
  {
    if values == [] then []
    else
      var last := |values| - 1;
      RollupsFor(entries, q, totals, period, values[..last]) + [RollupFor(entries, q, totals, period, values[last])]
  }

  // ----- The whole summary -----

  function PeriodAt(p: int, interval: Interval): Window
    requires IsBoundary(p, interval)
  {
    Window(p, NextPeriod(p, interval))
  }

  function PeriodRollups(entries: seq<Record>, q: Query, totals: seq<CostTotal>, p: int): seq<Rollup>
    requires IsBoundary(p, q.interval)
  {
    if entries == [] then []
      else RollupsFor(entries, q, totals, PeriodAt(p, q.interval), GroupValues(entries, q.groupBy))
  }

  /** The rollups of all periods from `p` on, in time order. */
  ghost function SummaryFrom(records: seq<Record>, q: Query, totals: seq<CostTotal>, p: int): seq<Rollup>
    requires IsBoundary(p, q.interval)
    decreases q.to - p
  {
    if q.to <= p then []
    else
      BoundariesClosed(p, q.interval);
      NextIsNearest(p, p, q.interval);
      PeriodRollups(Entries(records, q, p), q, totals, p) + SummaryFrom(records, q, totals, NextPeriod(p, q.interval))
  }

  ghost function Summary(records: seq<Record>, q: Query, totals: seq<CostTotal>): seq<Rollup> {
    Tiling(q.from, q.interval);
    SummaryFrom(records, q, totals, PeriodStart(q.from, q.interval))
  }

  /** Records are entered only in periods between the one of `from` and `to`. */
  lemma {:induction false} EntriesInRange(records: seq<Record>, q: Query, p: int)
    requires Entries(records, q, p) != []
    ensures IsBoundary(p, q.interval) && PeriodStart(q.from, q.interval) <= p < q.to
  {
    hide PeriodStart, NextPeriod;
    var last := |records| - 1;
    if Entries(records[..last], q, p) != [] {
      EntriesInRange(records[..last], q, p);
    } else {
      var r := records[last];
      if Completes(r, q) && PeriodStart(r.completedAt, q.interval) == p {
        Tiling(r.completedAt, q.interval);
        PeriodStartMonotone(q.from, r.completedAt, q.interval);
      } else {
        PeriodStartMonotone(q.from, Max(q.from, WindowStart(r).value), q.interval);
      }
    }
  }

  /** Periods without entries add no rollup. */
  lemma {:induction false} SkipEmpty(records: seq<Record>, q: Query, totals: seq<CostTotal>, a: int, b: int)
    requires IsBoundary(a, q.interval) && IsBoundary(b, q.interval) && a <= b
    requires forall p :: IsBoundary(p, q.interval) && a <= p < b ==> Entries(records, q, p) == []
    requires b < q.to || q.to <= a
    ensures SummaryFrom(records, q, totals, a) == SummaryFrom(records, q, totals, b)
    decreases b - a
  {
    hide PeriodStart, NextPeriod, Entries;
    if a < b && a < q.to {
      BoundariesClosed(a, q.interval);
      NextIsNearest(a, b, q.interval);
      assert Entries(records, q, a) == [];
      SkipEmpty(records, q, totals, NextPeriod(a, q.interval), b);
    }
  }

  lemma {:induction false} NothingLeft(records: seq<Record>, q: Query, totals: seq<CostTotal>, a: int)
    requires IsBoundary(a, q.interval)
    requires forall p :: IsBoundary(p, q.interval) && a <= p ==> Entries(records, q, p) == []
    ensures SummaryFrom(records, q, totals, a) == []
    decreases q.to - a
  {
    hide PeriodStart, NextPeriod, Entries;
    if a < q.to {
      BoundariesClosed(a, q.interval);
      NextIsNearest(a, a, q.interval);
      assert Entries(records, q, a) == [];
      NothingLeft(records, q, totals, NextPeriod(a, q.interval));
    }
  }

  datatype SummaryResult = Rollups(rollups: seq<Rollup>) | InvalidRange

  method MakeRollup(
    entries: seq<Record>, q: Query, totals: seq<CostTotal>, period: Window, value: Id) returns (rollup: Rollup)
    ensures rollup == RollupFor(entries, q, totals, period, value)
  {
    hide Estimate, WithValue, OfCustomer, MatchingTotals, ProvidersOf, IsReconciled, GroupValue;
    var estimate, _ := EstimatedCost(CostedEntries(entries, q, value), period, CostedCustomer(q, value));
    var providers := ProvidersOf(EntriesOf(entries, q, value));
    var matching := MatchingTotals(totals, providers, period);
    var reconciled := IsReconciled(q, providers, matching);
    var spend := 0.0;
    if reconciled {
      for i := 0 to |matching|
        invariant spend == Spend(matching[..i], entries, q, period, value)
      {
        assert matching[..i + 1][..i] == matching[..i];
        var part := matching[i].amountUsd;
        if q.groupBy == Some(ByCustomer) {
          var own := WithValue(entries, ByProvider, matching[i].provider);
          var whole, _ := EstimatedCost(own, period, None);
          var customerPart, _ := EstimatedCost(own, period, Some(value));
          part := if whole == 0.0 then if value == UNALLOCATED then part else 0.0
            else Times(part, customerPart / whole);
        }
        spend := spend + part;
      }
      assert matching[..|matching|] == matching;
    }
    rollup := Rollup(
      q.interval, period, if q.groupBy.None? then None else Some((q.groupBy.value, value)),
      estimate, spend, if reconciled && q.groupBy != Some(ByCustomer) then spend else estimate, reconciled);
  }

  method MakeRollups(
    entries: seq<Record>, q: Query, totals: seq<CostTotal>, period: Window, values: seq<Id>)
      returns (rollups: seq<Rollup>)
    ensures rollups == RollupsFor(entries, q, totals, period, values)
  {
    hide RollupFor;
    rollups := [];
    for i := 0 to |values|
      invariant rollups == RollupsFor(entries, q, totals, period, values[..i])
    {
      assert values[..i + 1][..i] == values[..i];
      var rollup := MakeRollup(entries, q, totals, period, values[i]);
      rollups := rollups + [rollup];
    }
    assert values[..|values|] == values;
  }

  /** The periods with entries, ascending. */
  ghost predicate Listed(records: seq<Record>, q: Query, byPeriod: map<int, seq<Record>>, periods: seq<int>) {
    && ByPeriod(records, q, byPeriod)
    && Elements(periods) == byPeriod.Keys
    && (forall a, b :: 0 <= a < b < |periods| ==> periods[a] < periods[b])
    && (forall k :: 0 <= k < |periods| ==>
         IsBoundary(periods[k], q.interval) && periods[k] < q.to && Entries(records, q, periods[k]) != [])
  }

  /** The periods with entries from `next` on are those listed from `i` on. */
  ghost predicate Pending(q: Query, byPeriod: map<int, seq<Record>>, periods: seq<int>, i: nat, next: int) {
    && i <= |periods|
    && IsBoundary(next, q.interval)
    && (forall k :: i <= k < |periods| ==> next <= periods[k])
    && (forall p :: IsBoundary(p, q.interval) && next <= p && p in byPeriod ==> p in periods[i..])
  }

  lemma ListingStarts(records: seq<Record>, q: Query, byPeriod: map<int, seq<Record>>, periods: seq<int>)
    requires ByPeriod(records, q, byPeriod) && forall p :: p in byPeriod ==> byPeriod[p] != []
    requires Elements(periods) == byPeriod.Keys
    requires forall a, b :: 0 <= a < b < |periods| ==> periods[a] < periods[b]
    ensures Listed(records, q, byPeriod, periods)
    ensures Pending(q, byPeriod, periods, 0, PeriodStart(q.from, q.interval))
  {
    hide PeriodStart, NextPeriod, Entries;
    Tiling(q.from, q.interval);
    var next := PeriodStart(q.from, q.interval);
    forall k | 0 <= k < |periods|
      ensures IsBoundary(periods[k], q.interval) && next <= periods[k] < q.to && Entries(records, q, periods[k]) != [] {
      assert periods[k] in Elements(periods);
      assert Entries(records, q, periods[k]) == byPeriod[periods[k]];
      EntriesInRange(records, q, periods[k]);
    }
    forall p | p in byPeriod ensures p in periods[0..] { assert p in Elements(periods); }
  }

  /** From one period with entries to the next. */
  lemma PeriodStep(
    records: seq<Record>, q: Query, totals: seq<CostTotal>, byPeriod: map<int, seq<Record>>, periods: seq<int>, i: nat,
    next: int)
    requires Listed(records, q, byPeriod, periods) && Pending(q, byPeriod, periods, i, next) && i < |periods|
    ensures IsBoundary(periods[i], q.interval) && periods[i] in byPeriod
      && byPeriod[periods[i]] == Entries(records, q, periods[i])
    ensures Pending(q, byPeriod, periods, i + 1, NextPeriod(periods[i], q.interval))
    ensures SummaryFrom(records, q, totals, next)
         == PeriodRollups(Entries(records, q, periods[i]), q, totals, periods[i])
           + SummaryFrom(records, q, totals, NextPeriod(periods[i], q.interval))
  {
    hide PeriodStart, NextPeriod, Entries, PeriodRollups;
    var p := periods[i];
    assert p in Elements(periods);
    BoundariesClosed(p, q.interval);
    NextIsNearest(p, p, q.interval);
    forall e | IsBoundary(e, q.interval) && next <= e < p ensures Entries(records, q, e) == [] {
      assert e !in periods[i..];
      assert e !in byPeriod;
    }
    SkipEmpty(records, q, totals, next, p);
    forall k | i < k < |periods|
      ensures NextPeriod(p, q.interval) <= periods[k] { NextIsNearest(p, periods[k], q.interval); }
    assert periods[i..] == [p] + periods[i + 1..];
  }

  lemma ListingEnds(
    records: seq<Record>, q: Query, totals: seq<CostTotal>, byPeriod: map<int, seq<Record>>, periods: seq<int>,
    next: int)
    requires Listed(records, q, byPeriod, periods) && Pending(q, byPeriod, periods, |periods|, next)
    ensures SummaryFrom(records, q, totals, next) == []
  {
    hide PeriodStart, NextPeriod, Entries, PeriodRollups;
    forall p | IsBoundary(p, q.interval) && next <= p ensures Entries(records, q, p) == [] {
      assert p !in byPeriod;
    }
    NothingLeft(records, q, totals, next);
  }

  method RollPeriod(entries: seq<Record>, q: Query, totals: seq<CostTotal>, p: int) returns (rollups: seq<Rollup>)
    requires IsBoundary(p, q.interval)
    ensures rollups == PeriodRollups(entries, q, totals, p)
  {
    if entries == [] { return []; }
    rollups := MakeRollups(entries, q, totals, PeriodAt(p, q.interval), GroupValues(entries, q.groupBy));
  }

  method RollAll(
    ghost records: seq<Record>, q: Query, totals: seq<CostTotal>, byPeriod: map<int, seq<Record>>, periods: seq<int>,
    ghost first: int)
    returns (results: seq<Rollup>)
    requires Listed(records, q, byPeriod, periods) && Pending(q, byPeriod, periods, 0, first)
    ensures results == SummaryFrom(records, q, totals, first)
  {
    results := [];
    ghost var next := first;
    hide PeriodStart, NextPeriod, IsBoundary, Entries, PeriodRollups, SummaryFrom, Listed, Pending, ByPeriod;
    PendingBoundary(q, byPeriod, periods, 0, first);
    for i := 0 to |periods|
      invariant IsBoundary(next, q.interval) && Pending(q, byPeriod, periods, i, next)
      invariant results + SummaryFrom(records, q, totals, next) == SummaryFrom(records, q, totals, first)
    {
      PeriodStep(records, q, totals, byPeriod, periods, i, next);
      var p := periods[i];
      var rollups := RollPeriod(byPeriod[p], q, totals, p);
      next := NextPeriod(p, q.interval);
      PendingBoundary(q, byPeriod, periods, i + 1, next);
      assert (results + rollups) + SummaryFrom(records, q, totals, next)
        == results + (rollups + SummaryFrom(records, q, totals, next));
      results := results + rollups;
    }
    ListingEnds(records, q, totals, byPeriod, periods, next);
  }

  lemma PendingBoundary(q: Query, byPeriod: map<int, seq<Record>>, periods: seq<int>, i: nat, next: int)
    requires Pending(q, byPeriod, periods, i, next)
    ensures IsBoundary(next, q.interval)
  {
  }

  method SummarizeUsage(records: seq<Record>, q: Query, totals: seq<CostTotal>) returns (result: SummaryResult)
    ensures result == if q.from < q.to then Rollups(Summary(records, q, totals)) else InvalidRange
  {
    if q.from >= q.to { return InvalidRange; }
    var byPeriod := GroupByPeriod(records, q);
    var periods := Ascending(byPeriod.Keys);
    hide PeriodStart, NextPeriod, Entries, SummaryFrom, Listed, Pending;
    Tiling(q.from, q.interval);
    ListingStarts(records, q, byPeriod, periods);
    var results := RollAll(records, q, totals, byPeriod, periods, PeriodStart(q.from, q.interval));
    result := Rollups(results);
  }
}
