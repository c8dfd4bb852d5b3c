/** What the rollups of a summary add up to, over the groups of one period and over
    all periods of a range. */
module UsageTotals {
  import opened Options
  import opened Windows
  import opened Periods
  import opened UsageRecords
  import opened Sums
  import opened Estimates
  import opened Summaries

  ghost function EstimatedTotal(rollups: seq<Rollup>): real {
    if rollups == [] then 0.0
    else EstimatedTotal(rollups[..|rollups| - 1]) + rollups[|rollups| - 1].estimatedCostUsd
  }

  lemma {:induction false} EstimatedTotalConcat(a: seq<Rollup>, b: seq<Rollup>)
    ensures EstimatedTotal(a + b) == EstimatedTotal(a) + EstimatedTotal(b)
  {
    if b == [] {
      assert a + b == a;
    } else {
      assert (a + b)[..|a + b| - 1] == a + b[..|b| - 1];
      EstimatedTotalConcat(a, b[..|b| - 1]);
    }
  }

  ghost predicate AllBuilt(records: seq<Record>) { forall r :: r in records ==> AsBuilt(r) }

  // ----- One period -----

  ghost function ValueSet(values: seq<Id>): set<Id> { set v | v in values }

  /** The rollups of distinct groups, summed in list order or as a set. */
  lemma {:induction false} RollupsAsSet(
    entries: seq<Record>, q: Query, totals: seq<CostTotal>, period: Window, values: seq<Id>, f: Id -> real)
    requires forall i, j :: 0 <= i < j < |values| ==> values[i] != values[j]
    requires forall v :: v in values ==> RollupFor(entries, q, totals, period, v).estimatedCostUsd == f(v)
    ensures EstimatedTotal(RollupsFor(entries, q, totals, period, values)) == SumOver(ValueSet(values), f)
  {
    hide RollupFor, SumOver;
    if values == [] {
      SumZero(ValueSet(values), f);
    } else {
      var last := |values| - 1;
      assert values == values[..last] + [values[last]];
      RollupsAsSet(entries, q, totals, period, values[..last], f);
      SumRemove(ValueSet(values), values[last], f);
      assert ValueSet(values) - {values[last]} == ValueSet(values[..last]);
    }
  }

  lemma GroupEstimate(entries: seq<Record>, q: Query, totals: seq<CostTotal>, period: Window, value: Id)
    ensures RollupFor(entries, q, totals, period, value).estimatedCostUsd
         == Estimate(CostedEntries(entries, q, value), period, CostedCustomer(q, value))
  {
  }

  /** In one period, the group estimates add up to the ungrouped estimate, for every
      grouping. */
  lemma PeriodConserved(entries: seq<Record>, q: Query, totals: seq<CostTotal>, period: Window)
    requires q.customerId.None? && AllBuilt(entries)
    ensures EstimatedTotal(RollupsFor(entries, q, totals, period, GroupValues(entries, q.groupBy)))
      == Estimate(entries, period, None)
  {
    hide Estimate, RollupFor, WithValue;
    var values := GroupValues(entries, q.groupBy);
    forall v ensures RollupFor(entries, q, totals, period, v).estimatedCostUsd
                  == Estimate(CostedEntries(entries, q, v), period, CostedCustomer(q, v)) {
      GroupEstimate(entries, q, totals, period, v);
    }
    if q.groupBy.None? {
      SingleGroup(entries, q, totals, period);
    } else if q.groupBy == Some(ByCustomer) {
      CustomersListed(entries);
      CustomerValues(entries, q, totals, period, values);
      CustomerEstimatesAddUp(entries, period, ValueSet(values));
    } else {
      GroupEstimatesAddUp(entries, q.groupBy.value, period, ValueSet(values));
      RollupsAsSet(entries, q, totals, period, values, EstimateByValue(entries, q.groupBy.value, period));
    }
  }

  lemma SingleGroup(entries: seq<Record>, q: Query, totals: seq<CostTotal>, period: Window)
    requires q.customerId.None? && q.groupBy.None?
    ensures EstimatedTotal(RollupsFor(entries, q, totals, period, ["all"])) == Estimate(entries, period, None)
  {
    hide Estimate;
    var all := RollupsFor(entries, q, totals, period, ["all"]);
    assert all == [RollupFor(entries, q, totals, period, "all")];
    assert EstimatedTotal(all) == EstimatedTotal([]) + all[0].estimatedCostUsd;
  }

  lemma CustomerValues(entries: seq<Record>, q: Query, totals: seq<CostTotal>, period: Window, values: seq<Id>)
    requires q.groupBy == Some(ByCustomer)
    requires forall i, j :: 0 <= i < j < |values| ==> values[i] != values[j]
    ensures EstimatedTotal(RollupsFor(entries, q, totals, period, values))
      == SumOver(ValueSet(values), EstimateByCustomer(entries, entries, period))
  {
    hide EstimateOf;
    forall v ensures RollupFor(entries, q, totals, period, v).estimatedCostUsd
      == EstimateByCustomer(entries, entries, period)(v) {
      GroupEstimate(entries, q, totals, period, v);
    }
    RollupsAsSet(entries, q, totals, period, values, EstimateByCustomer(entries, entries, period));
  }

  lemma CustomersListed(entries: seq<Record>)
    requires AllBuilt(entries)
    ensures CustomersOf(entries, ValueSet(GroupValues(entries, Some(ByCustomer))))
  {
    var listed := AttemptCustomers(entries) + (if HasCapacity(entries) then [UNALLOCATED] else []);
    forall r | r in entries && r.kind == Attempt ensures r.customerId in listed {
      assert r.customerId in AttemptCustomers(entries);
    }
  }

  // ----- All periods -----

  /** Charges over adjacent periods add up to the charge over both. */
  lemma ChargeSplits(r: Record, a: int, b: int, c: int)
    requires a <= b <= c
    ensures PlainCharge(r, Window(a, b)) + PlainCharge(r, Window(b, c)) == PlainCharge(r, Window(a, c))
  {
    assert Length(CapacityWindow(r, Window(a, b))) + Length(CapacityWindow(r, Window(b, c)))
      == Length(CapacityWindow(r, Window(a, c)));
    SlotChargeSplits(r, Window(a, b), Window(b, c), Window(a, c));
  }

  lemma SlotChargeSplits(r: Record, x: Window, y: Window, z: Window)
    requires Length(CapacityWindow(r, x)) + Length(CapacityWindow(r, y)) == Length(CapacityWindow(r, z))
    ensures SlotCharge(r, x) + SlotCharge(r, y) == SlotCharge(r, z)
  {
    if r.pricingModel == Some(PerDeviceMonth) && r.priceUsd.Some? {
      var lx, ly := Length(CapacityWindow(r, x)) as real, Length(CapacityWindow(r, y)) as real;
      assert (lx + ly) / SLOT_MONTH_MS == lx / SLOT_MONTH_MS + ly / SLOT_MONTH_MS;
    }
  }

  lemma EmptyCharge(r: Record, a: int)
    ensures PlainCharge(r, Window(a, a)) == 0.0
  {
    assert Length(CapacityWindow(r, Window(a, a))) == 0;
  }

  ghost predicate AlignedRange(q: Query) {
    q.from < q.to && IsBoundary(q.from, q.interval) && IsBoundary(q.to, q.interval)
  }

  /** A record is charged in no period it is not entered in. */
  lemma UnassignedIsFree(r: Record, q: Query, p: int)
    requires AlignedRange(q) && AsBuilt(r)
    requires IsBoundary(p, q.interval) && q.from <= p < q.to && !Assigned(r, q, p)
    ensures PlainCharge(r, PeriodAt(p, q.interval)) == 0.0
  {
    hide PeriodStart, NextPeriod;
    var period := PeriodAt(p, q.interval);
    NextIsNearest(p, q.to, q.interval);
    if r.kind == Attempt {
      if period.start <= r.completedAt < period.end {
        TilingUnique(r.completedAt, p, q.interval);
      }
      NothingCharged(r, period);
    } else {
      if CapacityWindow(r, period).Some? {
        var inside := Max(q.from, r.startedAt);
        Tiling(inside, q.interval);
        NextIsNearest(p, PeriodStart(inside, q.interval), q.interval);
      }
      assert Length(CapacityWindow(r, period)) == 0;
    }
  }

  /** What a record is charged in the periods from `p` on that it is entered in. */
  ghost function ChargedFrom(r: Record, q: Query, p: int): real
    requires IsBoundary(p, q.interval)
    decreases q.to - p
  {
    if q.to <= p then 0.0
    else
      BoundariesClosed(p, q.interval);
      NextIsNearest(p, p, q.interval);
      (if Assigned(r, q, p) then PlainCharge(r, PeriodAt(p, q.interval)) else 0.0)
        + ChargedFrom(r, q, NextPeriod(p, q.interval))
  }

  lemma {:induction false} ChargedOnce(r: Record, q: Query, p: int)
    requires AlignedRange(q) && AsBuilt(r)
    requires IsBoundary(p, q.interval) && q.from <= p <= q.to
    ensures ChargedFrom(r, q, p) == PlainCharge(r, Window(p, q.to))
    decreases q.to - p
  {
    hide PeriodStart, NextPeriod, PlainCharge, Assigned;
    if p == q.to {
      EmptyCharge(r, p);
    } else {
      BoundariesClosed(p, q.interval);
      NextIsNearest(p, q.to, q.interval);
      var next := NextPeriod(p, q.interval);
      ChargedOnce(r, q, next);
      ChargeSplits(r, p, next, q.to);
      if !Assigned(r, q, p) { UnassignedIsFree(r, q, p); }
    }
  }

  /** The ungrouped estimates of the periods from `p` on. */
  ghost function EstimatesFrom(records: seq<Record>, q: Query, p: int): real
    requires IsBoundary(p, q.interval)
    decreases q.to - p
  {
    if q.to <= p then 0.0
    else
      BoundariesClosed(p, q.interval);
      NextIsNearest(p, p, q.interval);
      Estimate(Entries(records, q, p), PeriodAt(p, q.interval), None)
        + EstimatesFrom(records, q, NextPeriod(p, q.interval))
  }

  lemma {:induction false} EntriesBuilt(records: seq<Record>, q: Query, p: int)
    requires AllBuilt(records)
    ensures AllBuilt(Entries(records, q, p))
  {
    if records != [] {
      assert records == records[..|records| - 1] + [records[|records| - 1]];
      EntriesBuilt(records[..|records| - 1], q, p);
    }
  }

  lemma PeriodRollupsConserved(records: seq<Record>, q: Query, totals: seq<CostTotal>, p: int)
    requires q.customerId.None? && AllBuilt(records) && IsBoundary(p, q.interval)
    ensures EstimatedTotal(PeriodRollups(Entries(records, q, p), q, totals, p))
         == Estimate(Entries(records, q, p), PeriodAt(p, q.interval), None)
  {
    hide RollupsFor, GroupValues, NextPeriod, PeriodStart;
    EntriesBuilt(records, q, p);
    if Entries(records, q, p) != [] {
      PeriodConserved(Entries(records, q, p), q, totals, PeriodAt(p, q.interval));
    }
  }

  lemma {:induction false} SummaryTotal(records: seq<Record>, q: Query, totals: seq<CostTotal>, p: int)
    requires q.customerId.None? && AllBuilt(records) && IsBoundary(p, q.interval)
    ensures EstimatedTotal(SummaryFrom(records, q, totals, p)) == EstimatesFrom(records, q, p)
    decreases q.to - p
  {
    hide PeriodStart, NextPeriod, Estimate, Entries, PeriodRollups;
    if p < q.to {
      BoundariesClosed(p, q.interval);
      NextIsNearest(p, p, q.interval);
      var next := NextPeriod(p, q.interval);
      SummaryTotal(records, q, totals, next);
      PeriodRollupsConserved(records, q, totals, p);
      EstimatedTotalConcat(PeriodRollups(Entries(records, q, p), q, totals, p), SummaryFrom(records, q, totals, next));
    }
  }

  lemma {:induction false} EstimatesAppend(rest: seq<Record>, r: Record, q: Query, p: int)
    requires IsBoundary(p, q.interval)
    ensures EstimatesFrom(rest + [r], q, p)
      == EstimatesFrom(rest, q, p) + (if Matches(r, q) then ChargedFrom(r, q, p) else 0.0)
    decreases q.to - p
  {
    hide PeriodStart, NextPeriod, Estimate, PlainCharge, Assigned, Matches;
    if p < q.to {
      BoundariesClosed(p, q.interval);
      NextIsNearest(p, p, q.interval);
      EstimatesAppend(rest, r, q, NextPeriod(p, q.interval));
      assert (rest + [r])[..|rest|] == rest;
      EstimateAppend(Entries(rest, q, p), r, PeriodAt(p, q.interval));
    }
  }

  /** The records the query selects. */
  function Selected(records: seq<Record>, q: Query): seq<Record> {
    if records == [] then []
    else
      var last := |records| - 1;
      var rest := Selected(records[..last], q);
      if Matches(records[last], q) then rest + [records[last]] else rest
  }

  lemma {:induction false} NoRecordsNoEstimates(q: Query, p: int)
    requires IsBoundary(p, q.interval)
    ensures EstimatesFrom([], q, p) == 0.0
    decreases q.to - p
  {
    hide PeriodStart, NextPeriod;
    if p < q.to {
      BoundariesClosed(p, q.interval);
      NextIsNearest(p, p, q.interval);
      NoRecordsNoEstimates(q, NextPeriod(p, q.interval));
    }
  }

  lemma {:induction false} PeriodsAddUp(records: seq<Record>, q: Query)
    requires AlignedRange(q) && AllBuilt(records)
    ensures EstimatesFrom(records, q, q.from) == Estimate(Selected(records, q), Window(q.from, q.to), None)
  {
    hide Estimate, EstimatesFrom, Matches, PlainCharge, PeriodStart;
    if records == [] {
      NoRecordsNoEstimates(q, q.from);
      NoRecordsNoEstimate(Window(q.from, q.to));
    } else {
      var last := |records| - 1;
      var rest, r := records[..last], records[last];
      assert records == rest + [r];
      PeriodsAddUp(rest, q);
      EstimatesAppend(rest, r, q, q.from);
      ChargedOnce(r, q, q.from);
      EstimateAppend(Selected(rest, q), r, Window(q.from, q.to));
    }
  }

  lemma NoRecordsNoEstimate(period: Window)
    ensures Estimate([], period, None) == 0.0
  {
  }

  /** Over a range that starts and ends on period boundaries, and for every grouping,
      all rollups together are the estimate of the whole range taken as one period:
      each per-GiB attempt that completed in the range once, each capacity window for
      exactly its part inside the range. */
  lemma SummaryConserved(records: seq<Record>, q: Query, totals: seq<CostTotal>)
    requires AlignedRange(q) && AllBuilt(records) && q.customerId.None?
    ensures EstimatedTotal(Summary(records, q, totals)) == Estimate(Selected(records, q), Window(q.from, q.to), None)
  {
    hide SummaryFrom, EstimatesFrom, Estimate;
    SummaryTotal(records, q, totals, q.from);
    PeriodsAddUp(records, q);
  }
}
