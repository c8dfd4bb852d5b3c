/** What a summary shows, read off the records, the query and the totals: the periods and
    groups of a record, and the status and spend of a rollup. */
module SummaryMeaning {
  import opened Options
  import opened Windows
  import opened Periods
  import opened UsageRecords
  import opened Sums
  import opened Estimates
  import opened Summaries

  // ----- Periods -----

  lemma StartsBy(t: int, p: int, interval: Interval)
    requires IsBoundary(p, interval)
    ensures PeriodStart(t, interval) <= p <==> t < NextPeriod(p, interval)
    ensures PeriodStart(t, interval) == p <==> p <= t < NextPeriod(p, interval)
  {
    hide PeriodStart, NextPeriod;
    Tiling(t, interval);
    NextIsNearest(p, PeriodStart(t, interval), interval);
    NextIsNearest(PeriodStart(t, interval), p, interval);
    if p <= t < NextPeriod(p, interval) { TilingUnique(t, p, interval); }
  }

  /** When a slot was provisioned, or a connection lasted. */
  function SpanOf(r: Record): (Option<int>, Option<int>) {
    match r.kind
    case Capacity => (Some(r.startedAt), Some(r.completedAt))
    case Attempt => (r.connectionStartedAt, r.connectionEndedAt)
  }

  /** A record counts in a period when it is an attempt that completed there, within the
      range, or when its span meets the range and, within it, the period. */
  lemma AssignedIs(r: Record, q: Query, p: int)
    requires IsBoundary(p, q.interval)
    ensures var (from, to) := SpanOf(r);
            var end := NextPeriod(p, q.interval);
            Assigned(r, q, p)
            <==> (r.kind == Attempt && q.from <= r.completedAt < q.to && p <= r.completedAt < end)
                 || (&& from.Some? && to.Some? && from.value < q.to && q.from < to.value
                     && p < q.to && p < to.value && q.from < end && from.value < end)
  {
    hide PeriodStart, NextPeriod;
    StartsBy(r.completedAt, p, q.interval);
    if WindowStart(r).Some? { StartsBy(Max(q.from, WindowStart(r).value), p, q.interval); }
  }

  // ----- Groups -----

  /** The groups of a period are the values its records have; by customer, those of its
      attempts and, with any capacity, Unallocated. */
  lemma GroupsAre(entries: seq<Record>, groupBy: Option<GroupBy>, value: Id)
    ensures value in GroupValues(entries, groupBy)
       <==> match groupBy
            case None => value == "all"
            case Some(ByCustomer) =>
              || (exists r :: r in entries && r.kind == Attempt && r.customerId == value)
              || (value == "Unallocated" && exists r :: r in entries && r.kind == Capacity)
            case Some(attribute) => exists r :: r in entries && GroupValue(r, attribute) == value
  {
  }

  /** Missing attributes have a group of their own. */
  lemma MissingValues(r: Record)
    ensures r.jobId.None? ==> GroupValue(r, ByJob) == "Unallocated"
    ensures r.sessionMode.None? ==> GroupValue(r, BySessionMode) == "Unallocated"
    ensures r.destinationDomain.None? ==> GroupValue(r, ByDestinationDomain) == "Unknown"
    ensures r.destinationHost.None? ==> GroupValue(r, ByDestinationHost) == "Unknown"
    ensures r.destinationPathTemplate.None? ==> GroupValue(r, ByDestinationPathTemplate) == "Unknown"
    ensures r.country.None? ==>
      GroupValue(r, ByCountry) == "Unknown" && (r.city.None? ==> GroupValue(r, ByCity) == "Unknown")
  {
  }

  /** A query narrowed to one value of an attribute, where the attribute can be asked for. */
  function Narrowed(q: Query, groupBy: GroupBy, value: Id): Option<Query> {
    match groupBy
    case ByProvider => Some(q.(provider := Some(value)))
    case ByCustomer => Some(q.(customerId := Some(value)))
    case ByUser => Some(q.(userId := Some(value)))
    case ByRoute => Some(q.(routeId := Some(value)))
    case ByJob => if value == "Unallocated" then None else Some(q.(jobId := Some(value)))
    case BySessionMode =>
      if value == "managed" then Some(q.(sessionMode := Some(Managed)))
      else if value == "stateless" then Some(q.(sessionMode := Some(Stateless))) else None
    case ByDestinationDomain => if value == "Unknown" then None else Some(q.(destinationDomain := Some(value)))
    case ByDestinationHost => if value == "Unknown" then None else Some(q.(destinationHost := Some(value)))
    case ByDestinationPathTemplate =>
      if value == "Unknown" then None else Some(q.(destinationPathTemplate := Some(value)))
    case ByCountry => if value == "Unknown" then None else Some(q.(country := Some(value)))
    case ByCity => if value == "Unknown" then None else Some(q.(city := Some(value)))
    case ByOutcome =>
      if value == "success" then Some(q.(outcome := Some(Success)))
      else if value == "http_error" then Some(q.(outcome := Some(HttpError)))
      else if value == "retry" then Some(q.(outcome := Some(Retry)))
      else if value == "failure" then Some(q.(outcome := Some(Failure))) else None
  }

  /** A range with no filter: every record matches. */
  predicate Unfiltered(q: Query) { q == PlainQuery(q.from, q.to, q.interval, q.groupBy) }

  lemma NarrowedMatches(r: Record, q: Query, groupBy: GroupBy, value: Id)
    requires Unfiltered(q) && Narrowed(q, groupBy, value).Some?
    ensures Matches(r, q)
    ensures Matches(r, Narrowed(q, groupBy, value).value) <==> GroupValue(r, groupBy) == value
  {
  }

  /** Filtering by a value keeps, in every period, exactly the records of the value's group
      of the unfiltered summary. */
  lemma {:induction false} FilterIsGroup(records: seq<Record>, q: Query, groupBy: GroupBy, value: Id, p: int)
    requires Unfiltered(q) && Narrowed(q, groupBy, value).Some?
    ensures Entries(records, Narrowed(q, groupBy, value).value, p) == WithValue(Entries(records, q, p), groupBy, value)
  {
    hide Matches, GroupValue, Assigned, Narrowed;
    if records != [] {
      var last := |records| - 1;
      var rest, r := records[..last], records[last];
      NarrowedRange(q, groupBy, value);
      var narrowed := Narrowed(q, groupBy, value).value;
      FilterIsGroup(rest, q, groupBy, value, p);
      NarrowedMatches(r, q, groupBy, value);
      SameRange(r, q, narrowed, p);
      if Assigned(r, q, p) {
        assert (Entries(rest, q, p) + [r])[..|Entries(rest, q, p)|] == Entries(rest, q, p);
      }
    }
  }

  lemma NarrowedRange(q: Query, groupBy: GroupBy, value: Id)
    requires Narrowed(q, groupBy, value).Some?
    ensures var narrowed := Narrowed(q, groupBy, value).value;
            narrowed.from == q.from && narrowed.to == q.to && narrowed.interval == q.interval
  {
  }

  lemma SameRange(r: Record, q: Query, narrowed: Query, p: int)
    requires narrowed.from == q.from && narrowed.to == q.to && narrowed.interval == q.interval
    ensures Assigned(r, narrowed, p) <==> Assigned(r, q, p)
  {
  }

  /** A logical operation can be asked for alone. */
  lemma OneOperation(r: Record, q: Query, operation: Id)
    requires Unfiltered(q)
    ensures Matches(r, q.(logicalOperationId := Some(operation))) <==> r.logicalOperationId == operation
  {
  }

  // ----- Status and spend -----

  /** The totals reported for the period by one of the providers. */
  ghost function TotalsFor(totals: seq<CostTotal>, providers: set<Id>, period: Window): set<nat> {
    set i: nat | i < |totals| && totals[i].provider in providers && totals[i].period == period
  }

  ghost function UsdFor(totals: seq<CostTotal>, providers: set<Id>, period: Window): real {
    if totals == [] then 0.0
    else
      var t := totals[|totals| - 1];
      UsdFor(totals[..|totals| - 1], providers, period)
      + if t.provider in providers && t.period == period then t.amountUsd else 0.0
  }

  lemma {:induction false} MatchingCount(totals: seq<CostTotal>, providers: set<Id>, period: Window)
    ensures |MatchingTotals(totals, providers, period)| == |TotalsFor(totals, providers, period)|
  {
    if totals == [] {
      assert TotalsFor(totals, providers, period) == {};
    } else {
      var last := |totals| - 1;
      MatchingCount(totals[..last], providers, period);
      var before, after := TotalsFor(totals[..last], providers, period), TotalsFor(totals, providers, period);
      assert forall i: nat :: i < last ==> totals[..last][i] == totals[i];
      if totals[last].provider in providers && totals[last].period == period {
        assert after == before + {last};
      } else {
        assert after == before;
      }
    }
  }

  lemma {:induction false} UngroupedSpend(
    totals: seq<CostTotal>, entries: seq<Record>, q: Query, period: Window, providers: set<Id>)
    requires q.groupBy != Some(ByCustomer)
    ensures Spend(MatchingTotals(totals, providers, period), entries, q, period, "all")
      == UsdFor(totals, providers, period)
  {
    if totals != [] {
      var last := |totals| - 1;
      UngroupedSpend(totals[..last], entries, q, period, providers);
      var before := MatchingTotals(totals[..last], providers, period);
      assert (before + [totals[last]])[..|before|] == before;
    }
  }

  /** The providers named by the records. */
  ghost function NamedProviders(entries: seq<Record>): set<Id> {
    set r | r in entries && r.provider != "unresolved" :: r.provider
  }

  /** The ungrouped rollup of a period is reconciled if and only if there are as many totals
      as named providers, and any; it then spends and is attributed those totals, and
      otherwise spends nothing and is attributed its estimate. */
  lemma UngroupedRollup(entries: seq<Record>, q: Query, totals: seq<CostTotal>, period: Window)
    requires q.groupBy.None?
    ensures var rollup := RollupFor(entries, q, totals, period, "all");
            var providers := NamedProviders(entries);
            && rollup.interval == q.interval && rollup.period == period && rollup.group == None
            && (rollup.reconciled <==> providers != {} && |TotalsFor(totals, providers, period)| == |providers|)
            && rollup.providerSpendUsd == (if rollup.reconciled then UsdFor(totals, providers, period) else 0.0)
            && rollup.attributedCostUsd
               == (if rollup.reconciled then rollup.providerSpendUsd else rollup.estimatedCostUsd)
  {
    hide Spend, Estimate;
    MatchingCount(totals, NamedProviders(entries), period);
    UngroupedSpend(totals, entries, q, period, NamedProviders(entries));
  }

  /** A customer's rollup is attributed its estimate, reconciled or not; a rollup by any
      other attribute is never reconciled. */
  lemma GroupedRollup(entries: seq<Record>, q: Query, totals: seq<CostTotal>, period: Window, value: Id)
    requires q.groupBy.Some?
    ensures var rollup := RollupFor(entries, q, totals, period, value);
            && rollup.interval == q.interval && rollup.period == period
              && rollup.group == Some((q.groupBy.value, value))
            && rollup.attributedCostUsd == rollup.estimatedCostUsd
            && (q.groupBy != Some(ByCustomer) ==> !rollup.reconciled && rollup.providerSpendUsd == 0.0)
  {
    hide Spend, Estimate;
  }
}
